/**
 * Decoding one drained batch of captured DOM events into an ordered list of
 * listener dispatches.
 *
 * The drain script returns a loosely typed collection of string-keyed
 * records. Each record is read with the casts of the original: a missing key
 * throws, a null value becomes a null field, a value of another type fails
 * the cast. Any throw ends the batch: the records before it have been
 * dispatched, the ones after it are not looked at.
 */
module Decode {
  import opened Wrappers
  import opened EventArgs

  /**
   * A field value of a drained record, typed as the script bridge types it.
   * `Other` stands for every value the casts below reject: a fractional
   * number, a list, a nested record.
   */
  datatype Value = Null | Str(s: string) | Long(n: int64) | Bool(b: bool) | Element(e: ElementRef) | Other

  type Record = map<string, Value>

  /** One entry of the drained collection; the loop casts each one to a record. */
  datatype Item = Dict(fields: Record) | NullItem | NotDict

  /**
   * What running the drain script gave: a collection of entries; anything
   * else (null included), which the `as` cast turns into "no collection";
   * or a throw from the script call itself (the document is going away).
   */
  datatype DrainResult = NotCollection | Collection(items: seq<Item>) | ScriptFailed

  /** The exceptions a batch can raise; they only reach the trace sink. */
  datatype Fault = KeyNotFound(key: string) | InvalidCast(key: string) | InvalidRecordCast | NullReference | ScriptError

  /** The key of the sentinel record the drain script returns while the queue is not installed. */
  const NotRegisteredKey: string := "captureScriptNotRegistered"

  // ---------------------------------------------------------------------------
  // Field access with the original's cast semantics

  /** The dictionary indexer: a missing key throws. */
  function Field(r: Record, key: string): Result<Value, Fault> {
    if key in r then Success(r[key]) else Failure(KeyNotFound(key))
  }

  /** `(long?)evn[key]` */
  function NullableLong(r: Record, key: string): Result<Option<int64>, Fault> {
    var v :- Field(r, key);
    match v
    case Null => Success(None)
    case Long(n) => Success(Some(n))
    case _ => Failure(InvalidCast(key))
  }

  /** `(bool?)evn[key]` */
  function NullableBool(r: Record, key: string): Result<Option<bool>, Fault> {
    var v :- Field(r, key);
    match v
    case Null => Success(None)
    case Bool(b) => Success(Some(b))
    case _ => Failure(InvalidCast(key))
  }

  /** `(string)evn[key]` */
  function NullableString(r: Record, key: string): Result<Option<string>, Fault> {
    var v :- Field(r, key);
    match v
    case Null => Success(None)
    case Str(s) => Success(Some(s))
    case _ => Failure(InvalidCast(key))
  }

  /** `(IWebElement)evn[key]` */
  function NullableElement(r: Record, key: string): Result<Option<ElementRef>, Fault> {
    var v :- Field(r, key);
    match v
    case Null => Success(None)
    case Element(e) => Success(Some(e))
    case _ => Failure(InvalidCast(key))
  }

  // ---------------------------------------------------------------------------
  // Tags and handlers

  /** `ToLower` on the ASCII letters; every other character is kept. */
  function LowerChar(c: char): char {
    if 'A' <= c <= 'Z' then (c as int - 'A' as int + 'a' as int) as char else c
  }

  function Lower(s: string): string {
    seq(|s|, i requires 0 <= i < |s| => LowerChar(s[i]))
  }

  /** The six listener lists a captured event can be raised on. */
  datatype Handler = Click | RightClick | DoubleClick | MouseOver | MouseLeave | KeyPress

  /** The lower-case DOM event name each handler answers to. */
  function TagOf(h: Handler): string {
    match h
    case Click => "click"
    case RightClick => "contextmenu"
    case DoubleClick => "dblclick"
    case MouseOver => "mouseover"
    case MouseLeave => "mouseleave"
    case KeyPress => "keypress"
  }

  /** The switch over the lower-cased `type`: any other tag has no handler. */
  function HandlerFor(tag: string): (h: Option<Handler>)
    ensures h.Some? ==> TagOf(h.value) == tag
  {
    if tag == "click" then Some(Click)
    else if tag == "contextmenu" then Some(RightClick)
    else if tag == "dblclick" then Some(DoubleClick)
    else if tag == "mouseover" then Some(MouseOver)
    else if tag == "mouseleave" then Some(MouseLeave)
    else if tag == "keypress" then Some(KeyPress)
    else None
  }

  /** The handler a record's `type` is routed to. */
  function Route(eventType: string): (h: Option<Handler>)
    ensures h.Some? ==> TagOf(h.value) == Lower(eventType)
  {
    HandlerFor(Lower(eventType))
  }

  // ---------------------------------------------------------------------------
  // Payloads

  /** One listener invocation: the handler raised and the payload it gets. */
  datatype Dispatch = Dispatch(handler: Handler, args: CapturedArgs)

  /** The three modifier flags, read in the order alt, ctrl, shift. */
  function DecodeModifiers(r: Record): (res: Result<Modifiers, Fault>)
    ensures "altKey" !in r ==> res == Failure(KeyNotFound("altKey"))
    ensures res.Success? ==> "altKey" in r && "ctrlKey" in r && "shiftKey" in r
  {
    var alt :- NullableBool(r, "altKey");
    var ctrl :- NullableBool(r, "ctrlKey");
    var shift :- NullableBool(r, "shiftKey");
    Success(Modifiers(alt, ctrl, shift))
  }

  /** A mouse payload: target, then the modifiers, then button and coordinates. */
  function DecodeMouse(r: Record): (res: Result<CapturedArgs, Fault>)
    ensures "target" !in r ==> res == Failure(KeyNotFound("target"))
    ensures res.Success? ==> res.value.MouseArgs? && "offsetY" in r
  {
    var target :- NullableElement(r, "target");
    var mods :- DecodeModifiers(r);
    var button :- NullableLong(r, "button");
    var clientX :- NullableLong(r, "clientX");
    var clientY :- NullableLong(r, "clientY");
    var offsetX :- NullableLong(r, "offsetX");
    var offsetY :- NullableLong(r, "offsetY");
    Success(MouseArgs(target, mods, button, clientX, clientY, offsetX, offsetY))
  }

  /** A keyboard payload: target, then the modifiers, then code and key. */
  function DecodeKeyboard(r: Record): (res: Result<CapturedArgs, Fault>)
    ensures "target" !in r ==> res == Failure(KeyNotFound("target"))
    ensures res.Success? ==> res.value.KeyboardArgs? && "key" in r
  {
    var target :- NullableElement(r, "target");
    var mods :- DecodeModifiers(r);
    var code :- NullableString(r, "code");
    var key :- NullableString(r, "key");
    Success(KeyboardArgs(target, mods, code, key))
  }

  /**
   * One ordinary record: its `type` is read (a null type throws on
   * `ToLower`), routed, and for a known tag the payload is decoded.
   * `Success(None)` is a record with a tag no handler answers to.
   */
  function DecodeEvent(r: Record): (res: Result<Option<Dispatch>, Fault>)
    ensures "type" !in r ==> res == Failure(KeyNotFound("type"))
    ensures res.Success? ==> "type" in r && r["type"].Str?
    ensures res.Success? && res.value.Some? ==>
              && Route(r["type"].s) == Some(res.value.value.handler)
              && (res.value.value.args.KeyboardArgs? <==> res.value.value.handler == KeyPress)
  {
    var t :- Field(r, "type");
    match t
    case Null => Failure(NullReference)
    case Str(s) =>
      (match Route(s)
       case None => Success(None)
       case Some(h) =>
         var args :- if h == KeyPress then DecodeKeyboard(r) else DecodeMouse(r);
         Success(Some(Dispatch(h, args))))
    case _ => Failure(InvalidCast("type"))
  }

  // ---------------------------------------------------------------------------
  // The batch

  /** What one entry of the batch does to the rest of it. */
  datatype ItemOutcome = Routed(dispatch: Option<Dispatch>) | InstallNeeded | Aborted(fault: Fault)

  function ClassifyItem(item: Item): (o: ItemOutcome)
    ensures o.InstallNeeded? <==> item.Dict? && NotRegisteredKey in item.fields
    ensures !item.Dict? ==> o.Aborted?
    ensures o.Routed? && o.dispatch.Some? ==> item.Dict? && "type" in item.fields
  {
    match item
    case NullItem => Aborted(NullReference)
    case NotDict => Aborted(InvalidRecordCast)
    case Dict(r) =>
      if NotRegisteredKey in r then InstallNeeded
      else match DecodeEvent(r)
        case Success(d) => Routed(d)
        case Failure(f) => Aborted(f)
  }

  /**
   * The effect of one batch: the dispatches in the order they are raised,
   * whether the capture script must be installed, and the fault (if any)
   * that ended the batch early.
   */
  datatype BatchOutcome = BatchOutcome(dispatches: seq<Dispatch>, install: bool, fault: Option<Fault>) {
    /** True when the batch ended before its last entry was looked at. */
    predicate Stopped() {
      install || fault.Some?
    }
  }

  const EmptyOutcome: BatchOutcome := BatchOutcome([], false, None)

  function OptionToSeq<T>(o: Option<T>): seq<T> {
    match o
    case None => []
    case Some(x) => [x]
  }

  /** The foreach over the drained entries, with its `break` and its abort on a throw. */
  function ProcessItems(items: seq<Item>): (out: BatchOutcome)
    ensures !(out.install && out.fault.Some?)
    ensures |out.dispatches| <= |items|
  {
    if items == [] then EmptyOutcome
    else
      match ClassifyItem(items[0])
      case InstallNeeded => BatchOutcome([], true, None)
      case Aborted(f) => BatchOutcome([], false, Some(f))
      case Routed(d) =>
        var rest := ProcessItems(items[1..]);
        rest.(dispatches := OptionToSeq(d) + rest.dispatches)
  }

  /** A whole drain result: anything but a collection dispatches nothing. */
  function ProcessBatch(drained: DrainResult): (out: BatchOutcome)
    ensures !drained.Collection? ==> out.dispatches == [] && !out.install
    ensures drained.Collection? ==> |out.dispatches| <= |drained.items|
  {
    match drained
    case NotCollection => EmptyOutcome
    case Collection(items) => ProcessItems(items)
    case ScriptFailed => BatchOutcome([], false, Some(ScriptError))
  }

  // ---------------------------------------------------------------------------
  // Properties of the batch

  /**
   * Entries are processed in drained order: a batch is the batch of its
   * first part followed, unless that part stopped, by the batch of the rest.
   */
  lemma {:induction false} ProcessItemsConcat(a: seq<Item>, b: seq<Item>)
    ensures ProcessItems(a + b) ==
              var pa := ProcessItems(a);
              if pa.Stopped() then pa
              else
                var pb := ProcessItems(b);
                pb.(dispatches := pa.dispatches + pb.dispatches)
  {
    if a == [] {
      assert a + b == b;
    } else {
      assert (a + b)[0] == a[0];
      assert (a + b)[1..] == a[1..] + b;
      ProcessItemsConcat(a[1..], b);
      match ClassifyItem(a[0])
      case InstallNeeded =>
      case Aborted(f) =>
      case Routed(d) =>
        var pa1, pb := ProcessItems(a[1..]), ProcessItems(b);
        if !pa1.Stopped() {
          assert OptionToSeq(d) + (pa1.dispatches + pb.dispatches)
              == (OptionToSeq(d) + pa1.dispatches) + pb.dispatches;
        }
    }
  }

  /** The foreach after one more entry: the entry's own outcome is appended. */
  lemma ProcessItemsSnoc(items: seq<Item>, i: nat)
    requires i < |items| && !ProcessItems(items[..i]).Stopped()
    ensures var done, one := ProcessItems(items[..i]), ProcessItems([items[i]]);
            ProcessItems(items[..i + 1]) == one.(dispatches := done.dispatches + one.dispatches)
  {
    assert items[..i + 1] == items[..i] + [items[i]];
    ProcessItemsConcat(items[..i], [items[i]]);
  }

  /** Once a prefix has stopped the foreach, the entries after it change nothing. */
  lemma StoppedPrefixDecides(done: seq<Item>, rest: seq<Item>)
    requires ProcessItems(done).Stopped()
    ensures ProcessItems(done + rest) == ProcessItems(done)
  {
    ProcessItemsConcat(done, rest);
  }

  /**
   * A batch of records that are all routed to a handler yields exactly one
   * dispatch per record, in the drained order, with no install and no fault.
   */
  lemma {:induction false} RoutedBatchInOrder(items: seq<Item>)
    requires forall i :: 0 <= i < |items| ==> ClassifyItem(items[i]).Routed? && ClassifyItem(items[i]).dispatch.Some?
    ensures !ProcessItems(items).Stopped()
    ensures |ProcessItems(items).dispatches| == |items|
    ensures forall i :: 0 <= i < |items| ==> ProcessItems(items).dispatches[i] == ClassifyItem(items[i]).dispatch.value
  {
    if items != [] {
      RoutedBatchInOrder(items[1..]);
      var rest := ProcessItems(items[1..]);
      var d := ClassifyItem(items[0]).dispatch.value;
      assert ProcessItems(items).dispatches == [d] + rest.dispatches;
      forall i | 0 < i < |items|
        ensures ProcessItems(items).dispatches[i] == ClassifyItem(items[i]).dispatch.value
      {
        assert items[1..][i - 1] == items[i];
      }
    }
  }

  /**
   * A record whose tag no handler answers to (submit, dragstart, dragend,
   * or anything else) dispatches nothing and the batch goes on.
   */
  lemma UnknownTagIsSkipped(r: Record, rest: seq<Item>)
    requires NotRegisteredKey !in r && "type" in r && r["type"].Str?
    requires Route(r["type"].s) == None
    ensures ProcessItems([Dict(r)] + rest) == ProcessItems(rest)
  {
    assert ([Dict(r)] + rest)[1..] == rest;
  }

  /** The tags the capture script queues but no handler answers to. */
  lemma QueuedTagsWithoutHandler()
    ensures Route("submit") == None
    ensures Route("dragstart") == None
    ensures Route("dragend") == None
  {
    assert Lower("submit") == "submit";
    assert Lower("dragstart") == "dragstart";
    assert Lower("dragend") == "dragend";
  }

  /** Each handler's tag routes back to it, and only that tag does. */
  lemma HandlerForTagOf(tag: string, h: Handler)
    ensures HandlerFor(tag) == Some(h) <==> tag == TagOf(h)
  {
  }

  /** Lower-casing is idempotent: the tags it produces are lower-case already. */
  lemma LowerIdempotent(s: string)
    ensures Lower(Lower(s)) == Lower(s)
  {
  }

  /**
   * Routing ignores ASCII case: a `type` is routed to `h` exactly when its
   * lower-cased form is `h`'s tag, so "Click" and "CLICK" route like "click".
   */
  lemma RouteIgnoresCase(s: string, h: Handler)
    ensures Route(s) == Some(h) <==> Lower(s) == TagOf(h)
    ensures Route(Lower(s)) == Route(s)
  {
    HandlerForTagOf(Lower(s), h);
    LowerIdempotent(s);
  }

  /** Upper- and mixed-case spellings route like their lower-case tags. */
  lemma MixedCaseTagsRoute()
    ensures Route("CLICK") == Some(Click)
    ensures Route("ContextMenu") == Some(RightClick)
    ensures Route("KeyPress") == Some(KeyPress)
  {
    assert Lower("CLICK") == "click";
    assert Lower("ContextMenu") == "contextmenu";
    assert Lower("KeyPress") == "keypress";
  }

  /**
   * A record routed to a handler yields exactly one dispatch, to that
   * handler, with the payload kind the handler takes.
   */
  lemma KnownTagDispatchesOnce(r: Record, h: Handler)
    requires NotRegisteredKey !in r && "type" in r && r["type"].Str?
    requires Route(r["type"].s) == Some(h)
    requires DecodeEvent(r).Success?
    ensures var out := ProcessItems([Dict(r)]);
            && !out.Stopped()
            && |out.dispatches| == 1
            && out.dispatches[0].handler == h
            && (out.dispatches[0].args.KeyboardArgs? <==> h == KeyPress)
  {
    assert [Dict(r)][1..] == [];
  }

  /** The sentinel record ends the batch with one install and no dispatch for it or anything after it. */
  lemma InstallEndsBatch(before: seq<Item>, r: Record, after: seq<Item>)
    requires NotRegisteredKey in r
    requires !ProcessItems(before).Stopped()
    ensures ProcessItems(before + [Dict(r)] + after) ==
              BatchOutcome(ProcessItems(before).dispatches, true, None)
  {
    assert before + [Dict(r)] + after == before + ([Dict(r)] + after);
    ProcessItemsConcat(before, [Dict(r)] + after);
  }

  /**
   * An entry that throws ends the batch: what was dispatched before it
   * stays dispatched, nothing after it is, and the fault is reported.
   */
  lemma FaultEndsBatch(before: seq<Item>, item: Item, after: seq<Item>)
    requires ClassifyItem(item).Aborted?
    requires !ProcessItems(before).Stopped()
    ensures ProcessItems(before + [item] + after) ==
              BatchOutcome(ProcessItems(before).dispatches, false, Some(ClassifyItem(item).fault))
  {
    assert before + [item] + after == before + ([item] + after);
    ProcessItemsConcat(before, [item] + after);
  }

  /** A record without a `type` key throws, as the indexer does. */
  lemma MissingTypeThrows(r: Record)
    requires NotRegisteredKey !in r && "type" !in r
    ensures ClassifyItem(Dict(r)) == Aborted(KeyNotFound("type"))
  {
  }

  /**
   * A drain result that is not a collection dispatches nothing and installs
   * nothing; a failed drain call is only reported.
   */
  lemma NoCollectionDispatchesNothing()
    ensures ProcessBatch(NotCollection) == BatchOutcome([], false, None)
    ensures ProcessBatch(ScriptFailed) == BatchOutcome([], false, Some(ScriptError))
  {
  }

  // ---------------------------------------------------------------------------
  // Payload fields are copied verbatim

  predicate NullableLongValue(v: Value) { v.Null? || v.Long? }
  predicate NullableBoolValue(v: Value) { v.Null? || v.Bool? }
  predicate NullableStringValue(v: Value) { v.Null? || v.Str? }
  predicate NullableElementValue(v: Value) { v.Null? || v.Element? }

  function LongOf(v: Value): Option<int64> { if v.Long? then Some(v.n) else None }
  function BoolOf(v: Value): Option<bool> { if v.Bool? then Some(v.b) else None }
  function StringOf(v: Value): Option<string> { if v.Str? then Some(v.s) else None }
  function ElementOf(v: Value): Option<ElementRef> { if v.Element? then Some(v.e) else None }

  predicate CommonFieldsReadable(r: Record) {
    && "target" in r && NullableElementValue(r["target"])
    && "altKey" in r && NullableBoolValue(r["altKey"])
    && "ctrlKey" in r && NullableBoolValue(r["ctrlKey"])
    && "shiftKey" in r && NullableBoolValue(r["shiftKey"])
  }

  function CommonModifiers(r: Record): Modifiers
    requires CommonFieldsReadable(r)
  {
    Modifiers(BoolOf(r["altKey"]), BoolOf(r["ctrlKey"]), BoolOf(r["shiftKey"]))
  }

  /**
   * A mouse payload decodes exactly when the target, the three modifiers,
   * the button and the four coordinates are all present with a value of the
   * cast's type or null; it then carries each of them unchanged, null as null.
   */
  lemma MousePayloadCopiesFields(r: Record)
    ensures DecodeMouse(r).Success? <==>
              && CommonFieldsReadable(r)
              && "button" in r && NullableLongValue(r["button"])
              && "clientX" in r && NullableLongValue(r["clientX"])
              && "clientY" in r && NullableLongValue(r["clientY"])
              && "offsetX" in r && NullableLongValue(r["offsetX"])
              && "offsetY" in r && NullableLongValue(r["offsetY"])
    ensures DecodeMouse(r).Success? ==>
              DecodeMouse(r).value ==
                MouseArgs(ElementOf(r["target"]), CommonModifiers(r),
                          LongOf(r["button"]), LongOf(r["clientX"]), LongOf(r["clientY"]),
                          LongOf(r["offsetX"]), LongOf(r["offsetY"]))
  {
  }

  /**
   * A keyboard payload decodes exactly when the target, the three modifiers,
   * `code` and `key` are present and of the cast's type or null; it then
   * carries each of them unchanged.
   */
  lemma KeyboardPayloadCopiesFields(r: Record)
    ensures DecodeKeyboard(r).Success? <==>
              && CommonFieldsReadable(r)
              && "code" in r && NullableStringValue(r["code"])
              && "key" in r && NullableStringValue(r["key"])
    ensures DecodeKeyboard(r).Success? ==>
              DecodeKeyboard(r).value ==
                KeyboardArgs(ElementOf(r["target"]), CommonModifiers(r),
                             StringOf(r["code"]), StringOf(r["key"]))
  {
  }

  /**
   * Modifier passthrough: a click with altKey true, ctrlKey null and
   * shiftKey false yields exactly those three values; with the ctrlKey key
   * missing altogether the record throws instead.
   */
  lemma ClickModifierPassthrough(target: ElementRef)
    ensures var r := map["type" := Str("click"), "target" := Element(target),
                         "altKey" := Bool(true), "ctrlKey" := Null, "shiftKey" := Bool(false),
                         "button" := Long(0), "clientX" := Long(1), "clientY" := Long(1),
                         "offsetX" := Null, "offsetY" := Null];
            && DecodeEvent(r) == Success(Some(Dispatch(Click,
                 MouseArgs(Some(target), Modifiers(Some(true), None, Some(false)),
                           Some(0), Some(1), Some(1), None, None))))
            && DecodeEvent(r - {"ctrlKey"}) == Failure(KeyNotFound("ctrlKey"))
  {
    assert Lower("click") == "click";
  }

  /** A complete mouse record as the capture script queues it, with no modifier pressed. */
  function MouseRecord(eventType: string, target: ElementRef, x: int64, y: int64): Record {
    map["type" := Str(eventType), "target" := Element(target),
        "altKey" := Bool(false), "ctrlKey" := Bool(false), "shiftKey" := Bool(false),
        "button" := Long(0), "clientX" := Long(x), "clientY" := Long(y),
        "offsetX" := Long(x), "offsetY" := Long(y)]
  }

  /** A complete keypress record, with no modifier pressed. */
  function KeyRecord(target: ElementRef, key: string): Record {
    map["type" := Str("keypress"), "target" := Element(target),
        "altKey" := Bool(false), "ctrlKey" := Bool(false), "shiftKey" := Bool(false),
        "code" := Null, "key" := Str(key)]
  }

  lemma MouseRecordRoutes(eventType: string, target: ElementRef, x: int64, y: int64)
    requires Route(eventType) != Some(KeyPress)
    ensures var none := Modifiers(Some(false), Some(false), Some(false));
            ClassifyItem(Dict(MouseRecord(eventType, target, x, y))) ==
              match Route(eventType)
              case None => Routed(None)
              case Some(h) => Routed(Some(Dispatch(h, MouseArgs(Some(target), none, Some(0), Some(x), Some(y), Some(x), Some(y)))))
  {
    var r := MouseRecord(eventType, target, x, y);
    assert NotRegisteredKey !in r;
    assert Field(r, "type") == Success(Str(eventType));
    MousePayloadCopiesFields(r);
  }

  lemma KeyRecordRoutes(target: ElementRef, key: string)
    ensures ClassifyItem(Dict(KeyRecord(target, key))) ==
              Routed(Some(Dispatch(KeyPress, KeyboardArgs(Some(target), Modifiers(Some(false), Some(false), Some(false)), None, Some(key)))))
  {
    assert Lower("keypress") == "keypress";
  }

  /**
   * A click at (1,1), an unsupported touchstart, a mouseover at (2,2) and a
   * keypress of "a" are raised as exactly click, mouseover, keypress, in
   * that order; the touchstart neither throws nor stops the batch.
   */
  lemma BatchOrderExample(e1: ElementRef, e2: ElementRef, e3: ElementRef, e4: ElementRef)
    ensures var out := ProcessItems([Dict(MouseRecord("click", e1, 1, 1)),
                                     Dict(MouseRecord("touchstart", e2, 0, 0)),
                                     Dict(MouseRecord("mouseover", e3, 2, 2)),
                                     Dict(KeyRecord(e4, "a"))]);
            var none := Modifiers(Some(false), Some(false), Some(false));
            out == BatchOutcome(
                     [Dispatch(Click, MouseArgs(Some(e1), none, Some(0), Some(1), Some(1), Some(1), Some(1))),
                      Dispatch(MouseOver, MouseArgs(Some(e3), none, Some(0), Some(2), Some(2), Some(2), Some(2))),
                      Dispatch(KeyPress, KeyboardArgs(Some(e4), none, None, Some("a")))],
                     false, None)
  {
    assert Lower("click") == "click";
    assert Lower("touchstart") == "touchstart";
    assert Lower("mouseover") == "mouseover";
    var i1, i2, i3, i4 := Dict(MouseRecord("click", e1, 1, 1)), Dict(MouseRecord("touchstart", e2, 0, 0)),
                          Dict(MouseRecord("mouseover", e3, 2, 2)), Dict(KeyRecord(e4, "a"));
    MouseRecordRoutes("click", e1, 1, 1);
    MouseRecordRoutes("touchstart", e2, 0, 0);
    MouseRecordRoutes("mouseover", e3, 2, 2);
    KeyRecordRoutes(e4, "a");
    FourRoutedEntries(i1, i2, i3, i4);
  }

  /** Four routed entries: the batch is their dispatches in order, without a stop. */
  lemma FourRoutedEntries(i1: Item, i2: Item, i3: Item, i4: Item)
    requires ClassifyItem(i1).Routed? && ClassifyItem(i2).Routed?
    requires ClassifyItem(i3).Routed? && ClassifyItem(i4).Routed?
    ensures ProcessItems([i1, i2, i3, i4]) ==
              BatchOutcome(OptionToSeq(ClassifyItem(i1).dispatch) + OptionToSeq(ClassifyItem(i2).dispatch)
                           + OptionToSeq(ClassifyItem(i3).dispatch) + OptionToSeq(ClassifyItem(i4).dispatch),
                           false, None)
  {
    RoutedCons(i4, []);
    assert [i4] + [] == [i4];
    RoutedCons(i3, [i4]);
    RoutedCons(i2, [i3, i4]);
    RoutedCons(i1, [i2, i3, i4]);
    assert [i1] + ([i2] + ([i3] + [i4])) == [i1, i2, i3, i4];
  }

  /** A routed entry contributes its dispatch, if any, ahead of the rest of the batch. */
  lemma RoutedCons(item: Item, rest: seq<Item>)
    requires ClassifyItem(item).Routed?
    ensures var r := ProcessItems(rest);
            ProcessItems([item] + rest) == r.(dispatches := OptionToSeq(ClassifyItem(item).dispatch) + r.dispatches)
  {
    assert ([item] + rest)[0] == item && ([item] + rest)[1..] == rest;
  }
}
