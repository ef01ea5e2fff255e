# echoprint element: buffering and triggering state machine

This project models the `echoprint` GStreamer element in Dafny. The element is an in-place
(pass-through) audio transform. It accepts mono 32-bit float audio at 11025 Hz and joins every
incoming chunk onto one accumulated buffer. The first time the buffer holds `seconds` whole seconds
of audio, the element does four things: it runs the external echoprint code generator over the
whole buffer, posts one element message named `echoprint` whose only field `code` holds the
result, marks itself `done`, and drops the buffer. Once `done` is set, later chunks pass through
untouched. `start` begins a new run with a fresh empty buffer. `stop` clears the flags and
releases the buffer.

The model has five modules:

- `EchoprintMessage` models the posted message and how a reader finds its `code` field.
- `EchoprintState` is the specification. It holds the element's fields as a value `State`. It
  defines `Start`, `Stop` and `TransformIp` as functions over that value, and `Run` feeds a series
  of chunks one after another. The lemmas about runs are stated over these functions.
- `EchoprintElement.Echoprint` is the element as a class. Its hooks update the fields in place.
  Each hook's `ensures` ties the new fields to the `EchoprintState` function applied to the old
  fields. The hooks also append the posted messages to a ghost bus log. The class invariant says
  that the current run has posted exactly one message if `done` is set, and none otherwise.
- `EchoprintStopAsWritten` models the fields as `start` and `stop` leave them, with the buffer
  pointer kept as the source keeps it (NULL, live, or naming a released buffer), for the finding
  below. `View` maps these fields onto `EchoprintState`'s, so the as-written and corrected hooks
  can be compared.
- `Wrappers` defines `Option`. A `None` buffer stands for a NULL `GstBuffer *`.

The element behaves as follows:

- It has no interval or repeated-trigger mode.
- The code covers the whole joined buffer. Integer division computes the size as
  `size / sizeof(float)` samples, which is the whole buffer. So the code can cover more than
  `seconds * 11025` samples when the last chunk overshoots.
- The "seconds" property accepts 20 to 40 and defaults to 30, as `class_init` declares it.
- `silent` is stored and reset, but it never stops a message from being posted.

The code generator is a `seq<Sample> -> string` value. The element receives it at construction
and stores it as `codegen`. A `Sample` is the 32-bit pattern of a float, and the model uses only
how many samples there are.

## Model

| member | source | states |
|---|---|---|
| `EchoprintMessage.MessageNew` | src/gstechoprint.cxx:229-233 | The posted message's structure is named `echoprint`. It has exactly one field, `code`, and a reader looking up `code` gets back exactly the computed code. |
| `EchoprintState.ThresholdIffSamples` | src/gstechoprint.cxx:250-253 | The test `(bytes/4)/11025 < seconds` uses integer division. It holds exactly when the sample count is below `seconds * 11025`. |
| `EchoprintState.Initial` | src/gstechoprint.cxx:140-148 | Construction gives `seconds` 30, which lies in the valid range. It also gives `silent` and `done` false and no buffer, so the element is not yet started. |
| `EchoprintState.Start` | src/gstechoprint.cxx:156-168 | `start` clears `done` and `silent` and installs an empty buffer. It keeps `seconds` and preserves validity. |
| `EchoprintState.Stop` | src/gstechoprint.cxx:170-183 | `stop` clears `done` and `silent` and releases the buffer. It keeps `seconds`. The pointer is cleared, which is the corrected behaviour (see Findings). |
| `EchoprintState.StopIdempotent` | src/gstechoprint.cxx:170-183 | Stopping twice is the same as stopping once, and after a stop no buffer is held. |
| `EchoprintState.TransformIp` | src/gstechoprint.cxx:237-270 | Every path returns FlowOk. When done, the state is unchanged and nothing is posted. Otherwise the buffer becomes the old buffer followed by the chunk while old plus chunk length is below `seconds * 11025`. At or above that count, the generator runs over the whole joined buffer and exactly one message carrying its code is posted. Then `done` is set, the buffer is dropped, and validity is kept. |
| `EchoprintState.RunWhenDone` | src/gstechoprint.cxx:246-247 | Once done, any series of chunks changes nothing and posts nothing. |
| `EchoprintState.RunBelowThreshold` | src/gstechoprint.cxx:249-253 | While the total stays below the threshold, nothing is posted and the buffer is the old buffer followed by all chunks. This holds however the audio was split into chunks. |
| `EchoprintState.RunFiresAtCrossing` | src/gstechoprint.cxx:252-267 | The trigger fires on the first chunk that brings the total to the threshold. It posts one message whose code is computed over everything received up to that chunk. The element ends done with no buffer, and later chunks are ignored. |
| `EchoprintState.RunPostsAtMostOnce` | src/gstechoprint.cxx:246-267 | From any started state, any series of chunks posts at most one message. After a message the element is done. |
| `EchoprintState.RunAfterStartTriggersIff` | src/gstechoprint.cxx:156-168 | After `start`, a series of chunks posts exactly one message if it holds at least `seconds * 11025` samples in total, and none otherwise. So a restarted element triggers again. |
| `EchoprintState.RunIgnoresSilent` | src/gstechoprint.cxx:262 | The `silent` flag never affects what is posted, and it never affects the rest of the state. |
| `EchoprintElement.Echoprint.constructor` | src/gstechoprint.cxx:140-148 | The instance init sets the default fields, the bus is empty, and the class invariant holds. |
| `EchoprintElement.Echoprint.Start` | src/gstechoprint.cxx:156-168 | The new fields are `Start` of the old ones. The result is TRUE, a new run begins with nothing posted, and the invariant is kept. |
| `EchoprintElement.Echoprint.Stop` | src/gstechoprint.cxx:170-183 | The new fields are `Stop` of the old ones. The result is TRUE, the buffer is released when present, and a new empty run begins. |
| `EchoprintElement.Echoprint.TransformIp` | src/gstechoprint.cxx:237-270 | The flow, the new fields and the messages appended to the bus are those of `TransformIp`. The chunk is only read. The current run still holds at most one message, and it holds one exactly when the element is done. |
| `EchoprintElement.Echoprint.SetSeconds` | src/gstechoprint.cxx:196-200 | A value is accepted exactly when it lies in 20..40, the range declared for the property at line 122. An accepted value replaces `seconds` only, and a rejected one changes nothing. |
| `EchoprintElement.Echoprint.SetSilent` | src/gstechoprint.cxx:191-194 | Setting `silent` replaces that field only. |
| `EchoprintStopAsWritten.StopAsWritten` | src/gstechoprint.cxx:170-183 | `stop` as written clears `silent` and `done`. It leaves a NULL pointer NULL. It releases a live buffer but keeps the pointer, which then names the released buffer. A pointer to an already released buffer is released a second time. Apart from that double release, the fields seen through `View` are exactly those of the corrected `Stop`. The only difference is that the pointer is left as released rather than NULL. |
| `EchoprintStopAsWritten.StartAsWritten` | src/gstechoprint.cxx:156-168 | `start` as written clears both flags and points the buffer at a fresh live buffer. Seen through `View`, this is exactly the corrected model's `Start`. |
| `EchoprintStopAsWritten.DoubleStopAsWritten` | src/gstechoprint.cxx:170-183 | From any state, running start, stop, stop with the code as written releases the same buffer twice. The corrected stop is idempotent on the same sequence. |

## Findings

| source | as written | input that shows it | evidently intended | confidence | as-written member | corrected member |
|---|---|---|---|---|---|---|
| src/gstechoprint.cxx:179-180 | `stop` unrefs the buffer when the pointer is non-NULL but never sets the pointer to NULL | start, then stop, then stop again, with no trigger in between: the second stop unrefs the buffer that the first stop already released | `stop` clears the pointer after releasing it, so a second stop is a no-op | medium; not executed; it needs a host that calls stop twice without a start in between | `EchoprintStopAsWritten.DoubleStopAsWritten` | `EchoprintState.StopIdempotent` |

The rest of the model uses the corrected `Stop`, which sets the buffer to `None`.

## Left out

- The fingerprint generator's internals (libcodegen) are not modelled. The generator is a function the element receives at construction. The model assumes it is deterministic and always returns a code.
- Sample values are not modelled. A sample is 32 opaque bits, and no float arithmetic happens in the core.
- EchoprintState.TransformIp: `size` is a 32-bit `guint` in the source, but the model computes the byte count without bound. The two agree whenever the joined buffer is under 4 GiB. A larger buffer cannot be a GstBuffer, whose own size field is a `guint`.
- EchoprintState.TransformIp: joining a zero-length chunk onto an empty buffer is modelled as a plain append, so the buffer stays empty and the element carries on. This happens for a zero-length first chunk after `start`. The library's `gst_buffer_join` is not part of this model. If it refuses a zero-length result and returns NULL, line 250 would read the size of a NULL buffer, and the model does not capture that.
- GstBuffer reference counting and the ownership rules of `gst_buffer_join` are not modelled. In particular, `gst_buffer_join` also takes the reference to the chunk it is given. The buffer is modelled as a value.
- `start` called twice without a `stop` drops the old buffer without releasing it. The model keeps no record of memory, so this leak is not shown.
- The stored `code` is modelled as the string value. The source keeps a pointer into a temporary string (line 260) that dangles once `transform_ip` returns.
- The message bus is not modelled. Posting a message appends it to a ghost log, and the message's source object is not recorded.
- Property getters (src/gstechoprint.cxx:207-227) are not modelled. They only read a field, and the object lock around property access exists for concurrency, which the model leaves out.
- The invalid-property-id warning branches of set and get are not modelled.
- The boilerplate is left out: `base_init`, `class_init`, pad templates and caps, `set_caps` and `src_event` (both return TRUE), plugin registration and debug logging. None of it affects the state machine.
- Pass-through of the chunk downstream belongs to the host's base transform. The model captures only that `transform_ip` reads the chunk and never writes it.
