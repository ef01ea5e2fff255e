/**
 * The echoprint element's state machine as values: the fields of the element,
 * what each lifecycle hook and each incoming chunk does to them, and the
 * messages a chunk causes to be posted.
 *
 * The element accepts mono 32-bit float audio at 11025 Hz. It joins every
 * incoming chunk onto one accumulated buffer; as soon as the buffer holds
 * `seconds` whole seconds of audio it runs the fingerprint generator over the
 * whole buffer, posts the code once, marks itself done and drops the buffer.
 */
module EchoprintState {
  import opened Wrappers
  import opened EchoprintMessage

  /** One audio sample: the bit pattern of a 32-bit float. Only counts matter. */
  type Sample = bv32

  /** Samples per second of the only accepted format. */
  const SampleRate: nat := 11025
  /** sizeof(float): bytes per sample. */
  const SampleBytes: nat := 4

  /** The range and default of the "seconds" property. */
  const MinSeconds: nat := 20
  const MaxSeconds: nat := 40
  const DefaultSeconds: nat := 30

  /**
   * Flow returns of an in-place transform: success, or an error that stops
   * the stream. The element only ever returns FlowOk.
   */
  datatype FlowReturn = FlowOk | FlowError

  /**
   * The element's private fields: `buffer` is None where the source holds a
   * NULL buffer pointer, `code` is None until a code has been computed.
   */
  datatype State = State(
    silent: bool,
    done: bool,
    seconds: nat,
    buffer: Option<seq<Sample>>,
    code: Option<string>)

  /** The result of handling a chunk: the flow return, the new fields, the messages posted. */
  datatype Outcome = Outcome(flow: FlowReturn, state: State, posted: seq<Message>)

  /** What the element keeps true between calls. */
  predicate Valid(s: State)
  {
    MinSeconds <= s.seconds <= MaxSeconds &&
    (s.done ==> s.buffer.None? && s.code.Some?)
  }

  /** The element has been started: it is done or holds a buffer to join onto. */
  predicate Started(s: State)
  {
    s.done || s.buffer.Some?
  }

  /** The number of samples that makes up `seconds` whole seconds. */
  function Threshold(s: State): nat
  {
    s.seconds * SampleRate
  }

  /** Byte size of a buffer of `samples` float samples. */
  function ByteSize(samples: nat): nat
  {
    samples * SampleBytes
  }

  /** Whole seconds of audio in a buffer of `size` bytes, by integer division. */
  function WholeSeconds(size: nat): nat
  {
    (size / SampleBytes) / SampleRate
  }

  /**
   * The whole-second test on the byte size is the same as comparing the
   * sample count with seconds * 11025.
   */
  lemma ThresholdIffSamples(samples: nat, seconds: nat)
    ensures WholeSeconds(ByteSize(samples)) < seconds <==> samples < seconds * SampleRate
  {
  }

  /** The fields right after construction: seconds 30, not silent, not done, no buffer. */
  function Initial(): (s: State)
    ensures Valid(s) && !Started(s)
    ensures s.seconds == DefaultSeconds && !s.silent && !s.done
  {
    State(false, false, DefaultSeconds, None, None)
  }

  /** `start`: clear both flags and install a fresh empty buffer. */
  function Start(s: State): (r: State)
    ensures Valid(s) ==> Valid(r)
    ensures Started(r) && !r.done && !r.silent && r.buffer == Some([])
    ensures r.seconds == s.seconds && r.code == s.code
  {
    s.(silent := false, done := false, buffer := Some([]))
  }

  /**
   * `stop`: clear both flags and release the buffer. Unlike the source, the
   * pointer is also cleared, so stopping twice releases nothing twice.
   */
  function Stop(s: State): (r: State)
    ensures Valid(s) ==> Valid(r)
    ensures !Started(r) && !r.silent
    ensures r.seconds == s.seconds && r.code == s.code
  {
    s.(silent := false, done := false, buffer := None)
  }

  /** Stopping is idempotent: a second stop finds nothing left to release. */
  lemma StopIdempotent(s: State)
    ensures Stop(Stop(s)) == Stop(s)
    ensures Stop(s).buffer.None? && !Started(Stop(s))
  {
  }

  /**
   * `transform_ip` on one chunk. When done, nothing happens. Otherwise the
   * chunk is joined onto the buffer; below `seconds` whole seconds that is
   * all; at or above it the generator runs over the whole joined buffer, one
   * message with its code is posted, the element is done and the buffer is
   * dropped. Every path returns FlowOk.
   */
  function TransformIp(codegen: seq<Sample> -> string, s: State, chunk: seq<Sample>): (r: Outcome)
    requires Started(s)
    ensures r.flow == FlowOk
    ensures Started(r.state)
    ensures Valid(s) ==> Valid(r.state)
    ensures r.state.silent == s.silent && r.state.seconds == s.seconds
    ensures s.done ==> r.state == s && r.posted == []
    ensures !s.done && |s.buffer.value| + |chunk| < Threshold(s) ==>
              r.state == s.(buffer := Some(s.buffer.value + chunk)) && r.posted == []
    ensures !s.done && |s.buffer.value| + |chunk| >= Threshold(s) ==>
              var fp := codegen(s.buffer.value + chunk);
              r.state == s.(done := true, buffer := None, code := Some(fp)) &&
              r.posted == [MessageNew(fp)]
  {
    if s.done then Outcome(FlowOk, s, [])
    else
      var joined := s.buffer.value + chunk;
      var size := ByteSize(|joined|);
      ThresholdIffSamples(|joined|, s.seconds);
      if WholeSeconds(size) < s.seconds then
        Outcome(FlowOk, s.(buffer := Some(joined)), [])
      else
        var fp := codegen(joined[..size / SampleBytes]);
        assert joined[..size / SampleBytes] == joined;
        Outcome(FlowOk, s.(done := true, buffer := None, code := Some(fp)), [MessageNew(fp)])
  }

  /** All the samples of a series of chunks, in arrival order. */
  function Flatten(chunks: seq<seq<Sample>>): seq<Sample>
  {
    if chunks == [] then [] else chunks[0] + Flatten(chunks[1..])
  }

  /** Feeding a series of chunks one after another: the last state and every message posted. */
  function Run(codegen: seq<Sample> -> string, s: State, chunks: seq<seq<Sample>>): Outcome
    requires Started(s)
    decreases |chunks|
  {
    if chunks == [] then Outcome(FlowOk, s, [])
    else
      var first := TransformIp(codegen, s, chunks[0]);
      var rest := Run(codegen, first.state, chunks[1..]);
      Outcome(rest.flow, rest.state, first.posted + rest.posted)
  }

  /** Once done, every further chunk is ignored: nothing changes and nothing is posted. */
  lemma {:induction false} RunWhenDone(codegen: seq<Sample> -> string, s: State, chunks: seq<seq<Sample>>)
    requires s.done
    ensures Run(codegen, s, chunks) == Outcome(FlowOk, s, [])
    decreases |chunks|
  {
    if chunks != [] {
      RunWhenDone(codegen, s, chunks[1..]);
    }
  }

  /**
   * While the accumulated audio stays below the threshold, nothing is posted
   * and the buffer is the old buffer followed by every chunk, however the
   * audio was split into chunks.
   */
  lemma {:induction false} RunBelowThreshold(codegen: seq<Sample> -> string, s: State, chunks: seq<seq<Sample>>)
    requires !s.done && s.buffer.Some?
    requires |s.buffer.value + Flatten(chunks)| < Threshold(s)
    ensures Run(codegen, s, chunks) == Outcome(FlowOk, s.(buffer := Some(s.buffer.value + Flatten(chunks))), [])
    decreases |chunks|
  {
    if chunks != [] {
      var b := s.buffer.value;
      var next := s.(buffer := Some(b + chunks[0]));
      assert b + Flatten(chunks) == (b + chunks[0]) + Flatten(chunks[1..]);
      assert TransformIp(codegen, s, chunks[0]) == Outcome(FlowOk, next, []);
      RunBelowThreshold(codegen, next, chunks[1..]);
    } else {
      assert s.buffer.value + Flatten(chunks) == s.buffer.value;
    }
  }

  /** The first k+1 chunks flatten to chunk 0 followed by the first k of the rest. */
  lemma FlattenPrefix(chunks: seq<seq<Sample>>, k: nat)
    requires k < |chunks|
    ensures Flatten(chunks[..k + 1]) == chunks[0] + Flatten(chunks[1..][..k])
  {
    assert chunks[..k + 1][0] == chunks[0];
    assert chunks[..k + 1][1..] == chunks[1..][..k];
  }

  /**
   * The trigger fires on chunk k, the first chunk whose arrival brings the
   * accumulated audio to the threshold: exactly one message is posted, its
   * code is the generator's result over everything accumulated up to and
   * including chunk k, and the element ends done with its buffer dropped.
   */
  lemma {:induction false} RunFiresAtCrossing(codegen: seq<Sample> -> string, s: State, chunks: seq<seq<Sample>>, k: nat)
    requires !s.done && s.buffer.Some?
    requires k < |chunks|
    requires k == 0 || |s.buffer.value + Flatten(chunks[..k])| < Threshold(s)
    requires Threshold(s) <= |s.buffer.value + Flatten(chunks[..k + 1])|
    ensures var fp := codegen(s.buffer.value + Flatten(chunks[..k + 1]));
            Run(codegen, s, chunks) ==
            Outcome(FlowOk, s.(done := true, buffer := None, code := Some(fp)), [MessageNew(fp)])
    decreases |chunks|
  {
    var b := s.buffer.value;
    FlattenPrefix(chunks, k);
    if k == 0 {
      assert chunks[1..][..0] == [];
      assert b + Flatten(chunks[..1]) == b + chunks[0];
      var fp := codegen(b + chunks[0]);
      var fired := s.(done := true, buffer := None, code := Some(fp));
      assert TransformIp(codegen, s, chunks[0]) == Outcome(FlowOk, fired, [MessageNew(fp)]);
      RunWhenDone(codegen, fired, chunks[1..]);
    } else {
      FlattenPrefix(chunks, k - 1);
      var next := s.(buffer := Some(b + chunks[0]));
      assert b + Flatten(chunks[..k]) == (b + chunks[0]) + Flatten(chunks[1..][..k - 1]);
      assert b + Flatten(chunks[..k + 1]) == (b + chunks[0]) + Flatten(chunks[1..][..k]);
      assert TransformIp(codegen, s, chunks[0]) == Outcome(FlowOk, next, []);
      RunFiresAtCrossing(codegen, next, chunks[1..], k - 1);
    }
  }

  /**
   * From any started state at most one message is posted, and once one has
   * been posted the element is done.
   */
  lemma {:induction false} RunPostsAtMostOnce(codegen: seq<Sample> -> string, s: State, chunks: seq<seq<Sample>>)
    requires Started(s)
    ensures |Run(codegen, s, chunks).posted| <= 1
    ensures |Run(codegen, s, chunks).posted| == 1 ==> Run(codegen, s, chunks).state.done
    ensures s.done ==> Run(codegen, s, chunks).posted == []
    decreases |chunks|
  {
    if s.done {
      RunWhenDone(codegen, s, chunks);
    } else if chunks != [] {
      var first := TransformIp(codegen, s, chunks[0]);
      if first.state.done {
        RunWhenDone(codegen, first.state, chunks[1..]);
      } else {
        RunPostsAtMostOnce(codegen, first.state, chunks[1..]);
      }
    }
  }

  /** When the chunks together reach the threshold, some chunk is the first to do so. */
  lemma {:induction false} CrossingExists(b: seq<Sample>, chunks: seq<seq<Sample>>, threshold: nat) returns (k: nat)
    requires |b| < threshold <= |b + Flatten(chunks)|
    ensures k < |chunks|
    ensures k == 0 || |b + Flatten(chunks[..k])| < threshold
    ensures threshold <= |b + Flatten(chunks[..k + 1])|
    decreases |chunks|
  {
    assert chunks != [];
    FlattenPrefix(chunks, 0);
    assert chunks[1..][..0] == [];
    if threshold <= |b + chunks[0]| {
      k := 0;
    } else {
      assert b + Flatten(chunks) == (b + chunks[0]) + Flatten(chunks[1..]);
      var j := CrossingExists(b + chunks[0], chunks[1..], threshold);
      k := j + 1;
      FlattenPrefix(chunks, k);
      FlattenPrefix(chunks, j);
      assert b + Flatten(chunks[..k + 1]) == (b + chunks[0]) + Flatten(chunks[1..][..j + 1]);
      if j > 0 {
        assert b + Flatten(chunks[..k]) == (b + chunks[0]) + Flatten(chunks[1..][..j]);
      }
    }
  }

  /**
   * After `start`, feeding chunks posts exactly one message when together they
   * hold at least `seconds` seconds of audio, and none otherwise; so a
   * restarted element triggers again on the same amount of audio.
   */
  lemma RunAfterStartTriggersIff(codegen: seq<Sample> -> string, s: State, chunks: seq<seq<Sample>>)
    requires Valid(s)
    ensures |Run(codegen, Start(s), chunks).posted| <= 1
    ensures |Run(codegen, Start(s), chunks).posted| == 1 <==> Threshold(s) <= |Flatten(chunks)|
  {
    var t := Start(s);
    RunPostsAtMostOnce(codegen, t, chunks);
    assert [] + Flatten(chunks) == Flatten(chunks);
    if |Flatten(chunks)| < Threshold(s) {
      RunBelowThreshold(codegen, t, chunks);
    } else {
      var k := CrossingExists([], chunks, Threshold(t));
      RunFiresAtCrossing(codegen, t, chunks, k);
    }
  }

  /** The silent flag never gates a message: runs differing only in it post the same messages. */
  lemma {:induction false} RunIgnoresSilent(codegen: seq<Sample> -> string, s: State, chunks: seq<seq<Sample>>, silent: bool)
    requires Started(s)
    ensures Run(codegen, s.(silent := silent), chunks).posted == Run(codegen, s, chunks).posted
    ensures Run(codegen, s.(silent := silent), chunks).state == Run(codegen, s, chunks).state.(silent := silent)
    decreases |chunks|
  {
    if chunks != [] {
      var first := TransformIp(codegen, s, chunks[0]);
      assert TransformIp(codegen, s.(silent := silent), chunks[0]) ==
             Outcome(FlowOk, first.state.(silent := silent), first.posted);
      RunIgnoresSilent(codegen, first.state, chunks[1..], silent);
    }
  }
}
