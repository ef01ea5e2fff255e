/**
 * The echoprint element as an object whose fields its hooks update in place.
 * Each hook's new state is the corresponding function of EchoprintState
 * applied to the old one; the bus is a ghost log of every posted message.
 */
module EchoprintElement {
  import opened Wrappers
  import opened EchoprintMessage
  import S = EchoprintState

  class Echoprint {
    var silent: bool
    var done: bool
    var seconds: nat
    var buffer: Option<seq<S.Sample>>
    var code: Option<string>

    /** Every message this element has posted on the bus, oldest first. */
    ghost var bus: seq<Message>
    /** Where the messages of the current run (since the last init, start or stop) begin in `bus`. */
    ghost var runStart: nat

    /** The external code generator, from samples to an echoprint code string. */
    const codegen: seq<S.Sample> -> string

    /** The element's fields as a value. */
    function Snapshot(): S.State
      reads this
    {
      S.State(silent, done, seconds, buffer, code)
    }

    /**
     * The fields are consistent, and the current run has posted one message
     * (the one carrying the stored code) if done, and none otherwise.
     */
    ghost predicate Valid()
      reads this
    {
      S.Valid(Snapshot()) &&
      runStart <= |bus| &&
      |bus| - runStart == (if done then 1 else 0) &&
      (done ==> bus[|bus| - 1] == MessageNew(code.value))
    }

    /** `gst_echoprint_init`: the default property values, nothing posted yet. */
    constructor (codegen: seq<S.Sample> -> string)
      ensures Valid()
      ensures Snapshot() == S.Initial() && this.codegen == codegen
      ensures bus == [] && runStart == 0
    {
      silent := false;
      seconds := S.DefaultSeconds;
      done := false;
      buffer := None;
      code := None;
      this.codegen := codegen;
      bus := [];
      runStart := 0;
    }

    /** `gst_echoprint_start`: reset both flags, take a fresh empty buffer and begin a new run. */
    method Start() returns (ok: bool)
      requires Valid()
      modifies this
      ensures Valid() && ok
      ensures Snapshot() == S.Start(old(Snapshot()))
      ensures bus == old(bus) && runStart == |bus|
    {
      silent := false;
      done := false;
      buffer := Some([]);
      runStart := |bus|;
      ok := true;
    }

    /** `gst_echoprint_stop`: reset both flags and release the buffer, clearing the pointer. */
    method Stop() returns (ok: bool)
      requires Valid()
      modifies this
      ensures Valid() && ok
      ensures Snapshot() == S.Stop(old(Snapshot()))
      ensures bus == old(bus) && runStart == |bus|
    {
      silent := false;
      done := false;
      if buffer.Some? {
        buffer := None;
      }
      runStart := |bus|;
      ok := true;
    }

    /**
     * `gst_echoprint_transform_ip` on the chunk `outbuf`, which it reads and
     * never writes. The new fields and the messages posted are those of
     * EchoprintState.TransformIp; the run keeps at most one message.
     */
    method TransformIp(outbuf: array<S.Sample>) returns (flow: S.FlowReturn)
      requires Valid() && S.Started(Snapshot())
      modifies this
      ensures Valid() && S.Started(Snapshot())
      ensures var o := S.TransformIp(codegen, old(Snapshot()), outbuf[..]);
              flow == o.flow && Snapshot() == o.state && bus == old(bus) + o.posted
      ensures runStart == old(runStart)
    {
      if done {
        return S.FlowOk;
      }
      var joined := buffer.value + outbuf[..];
      buffer := Some(joined);
      var size := S.ByteSize(|joined|);
      S.ThresholdIffSamples(|joined|, seconds);
      if S.WholeSeconds(size) < seconds {
        return S.FlowOk;
      }
      assert joined[..size / S.SampleBytes] == joined;
      var fp := codegen(joined[..size / S.SampleBytes]);
      code := Some(fp);
      bus := bus + [MessageNew(fp)];
      done := true;
      buffer := None;
      return S.FlowOk;
    }

    /**
     * Setting the "seconds" property: a value outside the declared range
     * 20..40 is rejected and changes nothing; an accepted one replaces
     * `seconds` and nothing else.
     */
    method SetSeconds(value: int) returns (accepted: bool)
      requires Valid()
      modifies this
      ensures Valid()
      ensures accepted <==> S.MinSeconds <= value <= S.MaxSeconds
      ensures accepted ==> Snapshot() == old(Snapshot()).(seconds := value)
      ensures !accepted ==> Snapshot() == old(Snapshot())
      ensures bus == old(bus) && runStart == old(runStart)
    {
      accepted := S.MinSeconds <= value <= S.MaxSeconds;
      if accepted {
        seconds := value;
      }
    }

    /** Setting the "silent" property replaces `silent` and nothing else. */
    method SetSilent(value: bool)
      requires Valid()
      modifies this
      ensures Valid()
      ensures Snapshot() == old(Snapshot()).(silent := value)
      ensures bus == old(bus) && runStart == old(runStart)
    {
      silent := value;
    }
  }
}
