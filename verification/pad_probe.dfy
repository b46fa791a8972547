/** The buffer pad probes installed on `h264parse`'s and `faac`'s source pads,
    and the shared `previous_pts` baseline they read. The two probe bodies
    are the same, so one `Probe` models both; a stream of probe calls from
    either branch is modelled by `Run`. */
module PadProbe {
  import opened Wrappers
  import opened ClockTime
  import opened TimestampRewrite

  /** A media buffer: optional timing fields and the payload bytes. */
  datatype Buffer = Buffer(pts: Option<nat>, dts: Option<nat>, payload: seq<bv8>) {
    /** `buffer.size()`: the payload length in bytes. */
    function Size(): nat { |payload| }
  }

  /** What a probe may see: a buffer, or any other kind of pad data. */
  datatype ProbeData = BufferData(buffer: Buffer) | OtherData

  /** GStreamer's pad-probe verdicts. */
  datatype ProbeReturn = Drop | Ok | Remove | Pass | Handled

  /** The probe's effect: the (possibly rewritten) data and its verdict. */
  datatype ProbeResult = ProbeResult(data: Option<ProbeData>, ret: ProbeReturn)

  /** The process-wide baseline, created once as zero seconds. */
  datatype TimestampState = TimestampState(previousPts: nat)

  const INITIAL_STATE: TimestampState := TimestampState(FromSeconds(0))

  /** The two branches whose probes share the baseline. */
  datatype Branch = Video | Audio

  /** One probe invocation: the branch it runs on and the data it sees. */
  datatype Event = Event(branch: Branch, data: Option<ProbeData>)

  /** The state after a probe call and that call's effect. */
  datatype StepResult = StepResult(state: TimestampState, result: ProbeResult)

  /** The state after a stream of probe calls and each call's effect, in order. */
  datatype RunResult = RunResult(final: TimestampState, results: seq<ProbeResult>)

  /** Buffer `after` agrees with `before` except that both timing fields are
      set; equal payloads imply equal sizes. */
  predicate OnlyTimingSet(before: Buffer, after: Buffer)
    ensures OnlyTimingSet(before, after) ==> after.Size() == before.Size()
  {
    && after.payload == before.payload
    && after.pts.Some?
    && after.dts.Some?
  }

  /** One probe call with the given baseline. A buffer gets the rewritten PTS
      and DTS, both present, and keeps its payload and size; any other data,
      or no data, passes untouched. The verdict is always `Pass`: nothing is
      dropped. */
  function Probe(baseline: nat, data: Option<ProbeData>): (r: ProbeResult)
    ensures r.ret == Pass
    ensures data.Some? && data.value.BufferData? ==>
              && r.data.Some? && r.data.value.BufferData?
              && OnlyTimingSet(data.value.buffer, r.data.value.buffer)
              && var t := Rewrite(baseline, data.value.buffer.pts, data.value.buffer.dts);
                 r.data.value.buffer.pts == Some(t.pts) && r.data.value.buffer.dts == Some(t.dts)
    ensures !(data.Some? && data.value.BufferData?) ==> r.data == data
  {
    match data
    case Some(BufferData(b)) =>
      var t := Rewrite(baseline, b.pts, b.dts);
      ProbeResult(Some(BufferData(b.(pts := Some(t.pts), dts := Some(t.dts)))), Pass)
    case _ =>
      ProbeResult(data, Pass)
  }

  /** One probe call on either branch: the baseline is read under the lock and
      never written back, so the state comes out as it went in. */
  function Step(state: TimestampState, e: Event): (r: StepResult)
    ensures r.state == state
    ensures r.result.ret == Pass
  {
    var baseline := state.previousPts;
    StepResult(state, Probe(baseline, e.data))
  }

  /** A stream of probe calls, from either branch in any interleaving,
      threading the shared state from call to call. The state ends as it
      began, one result is produced per call, and each result is the probe
      applied to that call's data alone with the initial baseline: neither the
      branch nor the other calls, nor their order, affect it. */
  function Run(state: TimestampState, events: seq<Event>): (r: RunResult)
    ensures r.final == state
    ensures |r.results| == |events|
    ensures forall i :: 0 <= i < |events| ==> r.results[i] == Probe(state.previousPts, events[i].data)
    decreases |events|
  {
    if |events| == 0 then
      RunResult(state, [])
    else
      var s := Step(state, events[0]);
      var rest := Run(s.state, events[1..]);
      RunResult(rest.final, [s.result] + rest.results)
  }

  /** Starting from the initial state, the baseline is still zero seconds
      after any stream of probe calls. */
  lemma BaselineStaysZero(events: seq<Event>)
    ensures Run(INITIAL_STATE, events).final.previousPts == 0
  {
  }

  /** Running two streams one after the other gives the results of running
      each on its own, concatenated. */
  lemma {:induction false} RunConcat(state: TimestampState, a: seq<Event>, b: seq<Event>)
    ensures Run(state, a + b).results == Run(state, a).results + Run(state, b).results
  {
    if |a| > 0 {
      assert (a + b)[0] == a[0];
      assert (a + b)[1..] == a[1..] + b;
      RunConcat(state, a[1..], b);
    } else {
      assert a + b == b;
    }
  }

  /** The result for a call depends only on its own data: the same data at any
      position of any stream, on either branch, gets the same result. */
  lemma OrderIndependent(state: TimestampState, xs: seq<Event>, ys: seq<Event>, i: nat, j: nat)
    requires i < |xs| && j < |ys|
    requires xs[i].data == ys[j].data
    ensures Run(state, xs).results[i] == Run(state, ys).results[j]
  {
  }

  /** The audio branch's probe computes the same thing as the video branch's.
      This holds by construction, since `Step` ignores the branch tag; the
      reason for that is in the source text, where the two probe bodies
      (src/main.rs:35-67 and 75-107) differ only in the strings they print
      (lines 42/82 and 59/99). */
  lemma BranchesAgree(state: TimestampState, data: Option<ProbeData>)
    ensures Step(state, Event(Video, data)) == Step(state, Event(Audio, data))
  {
  }

  /** Video scenario: baseline 0, PTS 10 s, DTS 9 s, a 4-byte payload. The
      buffer comes out with PTS 20010 s and DTS 20008 s, payload unchanged. */
  lemma ScenarioVideoBuffer()
    ensures var b := Buffer(Some(FromSeconds(10)), Some(FromSeconds(9)), [1, 2, 3, 4]);
            Step(INITIAL_STATE, Event(Video, Some(BufferData(b))))
            == StepResult(INITIAL_STATE,
                          ProbeResult(Some(BufferData(Buffer(Some(FromSeconds(20010)), Some(FromSeconds(20008)), [1, 2, 3, 4]))), Pass))
  {
  }
}
