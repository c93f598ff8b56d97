/**
 * The data the capturing driver hands to its listeners, and its options.
 * These are setter-only holders in the original; here they are values.
 */
module EventArgs {
  import opened Wrappers

  /** A .NET `long`: the type the bridge uses for whole numbers. */
  newtype int64 = x: int | -0x8000_0000_0000_0000 <= x < 0x8000_0000_0000_0000

  /** An opaque handle on a DOM element, owned by the browser driver. */
  datatype ElementRef = ElementRef(id: nat)

  /** The three nullable modifier flags every captured event carries. */
  datatype Modifiers = Modifiers(altKey: Option<bool>, ctrlKey: Option<bool>, shiftKey: Option<bool>)

  /**
   * The payload of one captured event. Every field is nullable, as in the
   * original; `None` is the .NET null. A null `element` is a record whose
   * `target` was null.
   */
  datatype CapturedArgs =
    | MouseArgs(element: Option<ElementRef>, modifiers: Modifiers,
                button: Option<int64>, clientX: Option<int64>, clientY: Option<int64>,
                offsetX: Option<int64>, offsetY: Option<int64>)
    | KeyboardArgs(element: Option<ElementRef>, modifiers: Modifiers,
                   code: Option<string>, key: Option<string>)

  /**
   * How listeners are invoked (inline, or each in a task of its own) and how
   * long the capture loop sleeps between iterations, in milliseconds.
   */
  datatype Options = Options(asyncEvents: bool, eventCaptureIntervalMs: nat)

  /** The defaults the options constructor sets. */
  const DefaultOptions: Options := Options(false, 100)
}
