# Buffer timestamp rewrite — a Dafny model

The program builds a GStreamer pipeline with a video branch (`h264parse`) and an
audio branch (`faac`) feeding `splitmuxsink`. It installs a buffer pad probe on
the source pad of each of the two elements. Both probes apply the same rule to
every buffer:

- an absent PTS or DTS reads as 0;
- the PTS moves forward by 20000 s when it exceeds the shared baseline
  `previous_pts`;
- the DTS moves forward by 19999 s when it is not later than the original PTS;
- both values are written back, and the probe returns `Pass`.

The baseline starts at 0 s and is only ever read.

Files:

- `wrappers.dfy`: the `Option` type.
- `clock_time.dfy`: nanosecond clock times, `from_seconds`, and absent-as-zero.
- `timestamp_rewrite.dfy`: the rule itself (`NewPts`, `NewDts`, `Rewrite`) and its properties.
- `pad_probe.dfy`: buffers, the probe, the shared baseline state, and streams of probe calls
  from either branch.

The comment in the source says "DTS should always be <= PTS". The code does not
guarantee this, and the model follows the code. `OrderedIff` gives the exact
condition under which the ordering holds after the rewrite. `OrderingNotInvariant`
gives an input that breaks it: baseline 0 and PTS = DTS = 0 produce PTS 0 and
DTS 19999 s.

The baseline is never updated, so it acts as a constant threshold of 0 s. `Run`
threads the state through every call and shows it comes out unchanged.

## Model

| member | source | states |
|---|---|---|
| Wrappers.Option.UnwrapOr | src/main.rs:38-39 | an optional value yields the held value when present and the fallback when absent |
| ClockTime.FromSeconds | src/main.rs:8 | s seconds as nanoseconds; dividing by 10^9 gives s back with no remainder |
| ClockTime.OrZero | src/main.rs:38-39 | a missing timestamp reads as zero; a present one is kept |
| TimestampRewrite.NewPts | src/main.rs:45-50 | the PTS gains exactly 20000 s if and only if it exceeds the baseline, otherwise it is unchanged; the rewrite never moves a PTS across the baseline |
| TimestampRewrite.NewDts | src/main.rs:52-57 | the DTS gains exactly 19999 s if and only if it is not later than the original PTS, otherwise it is unchanged; the baseline plays no part; a shifted DTS ends at least 1 s before the original PTS plus 20000 s |
| TimestampRewrite.Rewrite | src/main.rs:38-57 | absent fields are read as zero, both results are defined and never smaller than the inputs, and the PTS and DTS decisions are the two rules above applied to the original values |
| TimestampRewrite.AbsentReadsAsZero | src/main.rs:38-39 | an absent PTS or DTS gives exactly the same rewrite as an explicit zero |
| TimestampRewrite.NewPtsStrictlyIncreasing | src/main.rs:45-50 | for a fixed baseline, a larger PTS always gives a strictly larger new PTS |
| TimestampRewrite.OrderedWhenPtsShifted | src/main.rs:48-57 | if the PTS exceeds the baseline and the DTS is not after the PTS, the new DTS is at least 1 s before the new PTS |
| TimestampRewrite.OrderedIff | src/main.rs:48-57 | the new DTS is not after the new PTS exactly when either the PTS exceeds the baseline and the DTS is within 20000 s after it, or the DTS is at least 19999 s before the PTS |
| TimestampRewrite.OrderingNotInvariant | src/main.rs:52-57 | some input with baseline 0 comes out with its DTS after its PTS, so "DTS <= PTS" is not guaranteed |
| TimestampRewrite.ScenarioPtsTenDtsNine | src/main.rs:46-57 | baseline 0, PTS 10 s and DTS 9 s give PTS 20010 s and DTS 20008 s |
| TimestampRewrite.ScenarioBothAbsent | src/main.rs:38-57 | with both timestamps absent and baseline 0, PTS stays 0 and DTS becomes 19999 s |
| PadProbe.Probe | src/main.rs:33-68 | a buffer gets the rewritten PTS and DTS, both set, with payload and size unchanged; other or missing data passes untouched; the verdict is always `Pass` |
| PadProbe.Step | src/main.rs:86 | a probe call reads the baseline and does not write it: the shared state is the same after the call as before |
| PadProbe.BranchesAgree | src/main.rs:74-108 | the audio probe has the same effect as the video probe on the same data and state |
| PadProbe.Run | src/main.rs:7-9 | over any interleaving of calls from both branches the shared state ends as it began, one result is produced per call, and each result is the probe applied to that call's own data with the initial baseline |
| PadProbe.BaselineStaysZero | src/main.rs:8 | starting from the initial state, the baseline is still 0 s after any stream of calls |
| PadProbe.RunConcat | src/main.rs:33-108 | processing two streams back to back gives the two streams' results concatenated |
| PadProbe.OrderIndependent | src/main.rs:46 | the same data at any position of any stream, on either branch, gets the same result |
| PadProbe.ScenarioVideoBuffer | src/main.rs:35-67 | a video buffer with PTS 10 s, DTS 9 s and a 4-byte payload comes out with PTS 20010 s, DTS 20008 s and the same payload |

## Left out

- Pipeline construction, element lookup, state change and the GLib main loop (src/main.rs:13-29, 70-72, 110, 134-138): library plumbing and I/O.
- The `split-now` signal handler (src/main.rs:111-114): it only prints and returns `None`.
- The bus watch (src/main.rs:117-131): a logging observer that always returns `Continue`.
- RTP header-extension embed and extract: the source has only a comment at src/main.rs:116 and no code, so there is nothing to model.
- The `Mutex` and `lazy_static` around `previous_pts` (src/main.rs:7-9): they only serialise reads between streaming threads. The baseline is a plain value passed to each call, and concurrency is not modelled.
- Panics from `lock().unwrap()` on a poisoned mutex and from `get_mut().unwrap()` on a buffer that is not writable (src/main.rs:46, 61, 86, 101): the model assumes the lock is healthy and the buffer writable.
- `println!` output and the unused `size` reads (src/main.rs:37, 42, 59, 77, 82, 99): they have no effect on the data.
- TimestampRewrite.Rewrite: clock times are unbounded naturals. The 64-bit range of `ClockTime`, and what its `+` does on overflow, belong to the GStreamer bindings and are not modelled.
