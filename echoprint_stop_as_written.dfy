/**
 * The element's fields as `gst_echoprint_start` and `gst_echoprint_stop`
 * leave them, with the buffer pointer tracked precisely. Stop releases the
 * buffer when the pointer is non-NULL but does not clear the pointer, so the
 * pointer goes on naming a released buffer, and a second stop releases it
 * again. EchoprintState.Stop is the corrected version, which clears it.
 */
module EchoprintStopAsWritten {
  import opened Wrappers
  import S = EchoprintState

  /** The buffer pointer: NULL, owning a live buffer, or naming a released one. */
  datatype Pointer = Null | Owned(samples: seq<S.Sample>) | Released

  /** The element's fields with the pointer as the source holds it. */
  datatype Element = Element(
    silent: bool,
    done: bool,
    seconds: nat,
    pointer: Pointer,
    code: Option<string>)

  /** What stop leaves behind, or the fault of releasing a buffer twice. */
  datatype StopResult = Stopped(element: Element) | DoubleRelease

  /** The buffer a pointer gives access to: none for NULL or a released buffer. */
  function Abs(p: Pointer): Option<seq<S.Sample>>
  {
    match p
    case Owned(b) => Some(b)
    case _ => None
  }

  /** The fields as the corrected model sees them. */
  function View(e: Element): S.State
  {
    S.State(e.silent, e.done, e.seconds, Abs(e.pointer), e.code)
  }

  /**
   * Start as written: both flags are cleared and the pointer is set to a
   * fresh, empty buffer whatever it held; seen through View, this is
   * exactly the corrected model's start.
   */
  function StartAsWritten(e: Element): (r: Element)
    ensures View(r) == S.Start(View(e))
    ensures r.pointer.Owned?
  {
    e.(silent := false, done := false, pointer := Owned([]))
  }

  /**
   * Stop as written: both flags are cleared; a NULL pointer is left alone; a
   * live buffer (of which the element holds the only reference) is released
   * and the pointer is kept, now naming the released buffer; a pointer to an
   * already released buffer is released again. Except for the double
   * release, the result seen through View is the corrected model's stop, and
   * the only difference is that the pointer is left as Released, not Null.
   */
  function StopAsWritten(e: Element): (r: StopResult)
    ensures r == DoubleRelease <==> e.pointer == Released
    ensures r.Stopped? ==> View(r.element) == S.Stop(View(e))
    ensures e.pointer == Null ==> r == Stopped(e.(silent := false, done := false))
    ensures e.pointer.Owned? ==> r == Stopped(e.(silent := false, done := false, pointer := Released))
  {
    var cleared := e.(silent := false, done := false);
    match e.pointer
    case Null => Stopped(cleared)
    case Owned(_) => Stopped(cleared.(pointer := Released))
    case Released => DoubleRelease
  }

  /**
   * start; stop; stop: the first stop leaves the pointer naming the released
   * buffer, and the second releases that buffer again, while the corrected
   * stop leaves no pointer to release.
   */
  lemma DoubleStopAsWritten(e: Element)
    ensures StopAsWritten(StartAsWritten(e)).Stopped?
    ensures StopAsWritten(StartAsWritten(e)).element.pointer == Released
    ensures StopAsWritten(StopAsWritten(StartAsWritten(e)).element) == DoubleRelease
    ensures S.Stop(S.Stop(S.Start(View(e)))) == S.Stop(S.Start(View(e)))
  {
    S.StopIdempotent(S.Start(View(e)));
  }
}
