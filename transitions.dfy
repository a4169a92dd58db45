/**
 * The transition detector of the monitor: how one probe run is turned into a
 * State, how that State is folded into the previous one, and which listener
 * notification the fold emits. A sequence of observations for one check is
 * folded by Run (the stored state) and Emitted (the notifications), and the
 * lemmas relate both to the trailing run of failures of that sequence.
 */
module Transitions {
  import opened Types

  /** What one call of a checker returns: its payload and, when it failed, the error text. */
  datatype ProbeResult = ProbeResult(data: Details, error: Option<string>)

  /**
   * One probe run as the runner sees it: the checker's result, the clock
   * reading taken when the State is built (checkTime) and the one taken
   * when the transition is detected (detectedAt).
   */
  datatype Observation = Observation(result: ProbeResult, checkTime: int, detectedAt: int)

  predicate Fails(o: Observation) {
    o.result.error.Some?
  }

  /** The state-building part of a runner's check function. */
  function NewEntry(name: string, result: ProbeResult, checkTime: int): State {
    match result.error
    case None => State(name, StatusOk, "", result.data, checkTime, 0, 0)
    case Some(msg) => State(name, StatusFailed, msg, result.data, checkTime, 0, 0)
  }

  /** The detector's output: the state to store and the notification to send, if any. */
  datatype Step = Step(state: State, event: Option<Event>)

  /**
   * Folds a freshly built entry into the previous stored state `prev`
   * (ZeroState when there is none); `now` is the clock at detection time.
   */
  function Detect(prev: State, entry: State, now: int): Step {
    if entry.IsFailure() then
      if !prev.IsFailure() then
        var s := entry.(timeOfFirstFailure := now, contiguousFailures := prev.contiguousFailures + 1);
        Step(s, Some(CheckFailed(s)))
      else
        var s := entry.(timeOfFirstFailure := prev.timeOfFirstFailure,
                        contiguousFailures := prev.contiguousFailures + 1);
        Step(s, Some(StillFailing(s, prev.contiguousFailures)))
    else if prev.IsFailure() then
      Step(entry, Some(CheckRecovered(entry, prev.contiguousFailures, now - prev.timeOfFirstFailure)))
    else
      Step(entry, None)
  }

  /**
   * The detector only sets the streak fields of the entry, notifies exactly
   * when the entry or the previous state is failing, and hands the listener
   * the state it stores.
   */
  lemma DetectKeepsEntry(prev: State, entry: State, now: int)
    ensures var r := Detect(prev, entry, now);
      && r.state == entry.(timeOfFirstFailure := r.state.timeOfFirstFailure,
                           contiguousFailures := r.state.contiguousFailures)
      && (r.event.Some? <==> entry.IsFailure() || prev.IsFailure())
      && (r.event.Some? ==> r.event.value.entry == r.state)
  {
  }

  /** One observation of check `name` folded into `prev`. */
  function After(name: string, prev: State, o: Observation): Step {
    Detect(prev, NewEntry(name, o.result, o.checkTime), o.detectedAt)
  }

  /** The state stored for check `name` after the observations `obs`, starting from none. */
  function Run(name: string, obs: seq<Observation>): State
    decreases |obs|
  {
    if obs == [] then ZeroState
    else After(name, Run(name, obs[..|obs| - 1]), obs[|obs| - 1]).state
  }

  function EventsOf(e: Option<Event>): seq<Event> {
    if e.Some? then [e.value] else []
  }

  /** Every listener notification the observations `obs` of check `name` produce, in order. */
  function Emitted(name: string, obs: seq<Observation>): seq<Event>
    decreases |obs|
  {
    if obs == [] then []
    else
      var prefix := obs[..|obs| - 1];
      Emitted(name, prefix) + EventsOf(After(name, Run(name, prefix), obs[|obs| - 1]).event)
  }

  /**
   * The length of the trailing run of failing observations: the last
   * `r` observations all fail and the one before them, if any, does not.
   */
  function TrailingFailures(obs: seq<Observation>): (r: nat)
    ensures r <= |obs|
    ensures forall i :: |obs| - r <= i < |obs| ==> Fails(obs[i])
    ensures r < |obs| ==> !Fails(obs[|obs| - 1 - r])
    decreases |obs|
  {
    if obs == [] || !Fails(obs[|obs| - 1]) then 0
    else 1 + TrailingFailures(obs[..|obs| - 1])
  }

  /**
   * The stored state counts the trailing failures, is failing exactly when
   * that count is positive, and while failing remembers the detection time
   * of the first failure of the streak.
   */
  lemma {:induction false} RunTracksStreak(name: string, obs: seq<Observation>)
    ensures var s, t := Run(name, obs), TrailingFailures(obs);
      && s.contiguousFailures == t
      && (s.IsFailure() <==> t > 0)
      && (t > 0 ==> s.timeOfFirstFailure == obs[|obs| - t].detectedAt)
    decreases |obs|
  {
    if obs != [] {
      var prefix := obs[..|obs| - 1];
      RunTracksStreak(name, prefix);
      assert prefix + [obs[|obs| - 1]] == obs;
    }
  }

  /**
   * After at least one observation the stored state belongs to the check,
   * holds the latest run's time, payload and error, and is well formed.
   */
  lemma {:induction false} RunIsRecorded(name: string, obs: seq<Observation>)
    requires obs != []
    ensures var s, o := Run(name, obs), obs[|obs| - 1];
      && Recorded(s)
      && s.name == name && s.checkTime == o.checkTime && s.details == o.result.data
      && (s.IsFailure() <==> Fails(o))
      && (Fails(o) ==> s.err == o.result.error.value)
  {
    RunTracksStreak(name, obs);
  }

  /**
   * The notification emitted by one more observation `o`, stated against the
   * trailing failures `t` of the earlier observations: a new failure, a
   * continuing one reporting the count before this run, a recovery reporting
   * the whole streak and the time since its first failure, or nothing.
   */
  lemma {:induction false} StepEvent(name: string, obs: seq<Observation>, o: Observation)
    ensures var t, step := TrailingFailures(obs), After(name, Run(name, obs), o);
      && (Fails(o) && t == 0 ==> step.event == Some(CheckFailed(step.state)))
      && (Fails(o) && t > 0 ==> step.event == Some(StillFailing(step.state, t)))
      && (!Fails(o) && t > 0 ==>
            step.event == Some(CheckRecovered(step.state, t, o.detectedAt - obs[|obs| - t].detectedAt)))
      && (!Fails(o) && t == 0 ==> step.event == None)
  {
    RunTracksStreak(name, obs);
  }

  /** Reading Run and Emitted one observation further. */
  lemma Unfold(name: string, obs: seq<Observation>, o: Observation)
    ensures Run(name, obs + [o]) == After(name, Run(name, obs), o).state
    ensures Emitted(name, obs + [o]) == Emitted(name, obs) + EventsOf(After(name, Run(name, obs), o).event)
  {
    assert (obs + [o])[..|obs|] == obs;
  }

  /**
   * The verdict of the test suite's mock checker on its `k`-th call: it
   * succeeds for the first `failAfter` calls and from call `recoverAfter` on.
   */
  function MockResult(failAfter: int, recoverAfter: int, k: int): ProbeResult {
    if k <= failAfter || k >= recoverAfter then ProbeResult(Payload("Working just fine"), None)
    else ProbeResult(Payload(""), Some("failure"))
  }

  predicate DrivenByMock(obs: seq<Observation>, failAfter: int, recoverAfter: int) {
    forall i :: 0 <= i < |obs| ==> obs[i].result == MockResult(failAfter, recoverAfter, i + 1)
  }

  /**
   * A checker that fails its first four calls and then recovers makes the
   * listener see one CheckFailed, three StillFailing with the counts 1, 2
   * and 3, and one CheckRecovered with count 4 whose duration runs from the
   * first failure; later successful runs notify nothing.
   */
  lemma {:induction false} MockListenerCalls(name: string, obs: seq<Observation>)
    requires |obs| >= 5 && DrivenByMock(obs, 0, 5)
    ensures var ev := Emitted(name, obs);
      && |ev| == 5
      && ev[0].CheckFailed?
      && (forall i :: 1 <= i <= 3 ==> ev[i].StillFailing? && ev[i].recordedFailures == i)
      && ev[4].CheckRecovered? && ev[4].recordedFailures == 4
      && ev[4].failureDuration == obs[4].detectedAt - obs[0].detectedAt
    decreases |obs|
  {
    var prefix, o := obs[..|obs| - 1], obs[|obs| - 1];
    assert prefix + [o] == obs;
    Unfold(name, prefix, o);
    StepEvent(name, prefix, o);
    if |obs| == 5 {
      MockPrefix(name, obs);
    } else {
      MockListenerCalls(name, prefix);
      assert !Fails(prefix[|prefix| - 1]);
    }
  }

  /** Emitted one observation further, read at index `k` of `obs`. */
  lemma EmittedAt(name: string, obs: seq<Observation>, k: nat)
    requires k < |obs|
    ensures var step := After(name, Run(name, obs[..k]), obs[k]);
      && Run(name, obs[..k + 1]) == step.state
      && Emitted(name, obs[..k + 1]) == Emitted(name, obs[..k]) + EventsOf(step.event)
  {
    assert obs[..k + 1] == obs[..k] + [obs[k]];
    Unfold(name, obs[..k], obs[k]);
  }

  /**
   * The mock checker's first `k` runs, for `k` up to 4, all fail: the
   * streak has length `k`, and the listener has seen one CheckFailed
   * followed by StillFailing with the counts 1 to `k` - 1.
   */
  lemma {:induction false} MockFailingRuns(name: string, obs: seq<Observation>, k: nat)
    requires k <= 4 && k <= |obs| && DrivenByMock(obs, 0, 5)
    ensures TrailingFailures(obs[..k]) == k
    ensures var ev := Emitted(name, obs[..k]);
      && |ev| == k
      && (k > 0 ==> ev[0].CheckFailed?)
      && (forall i :: 1 <= i < k ==> ev[i].StillFailing? && ev[i].recordedFailures == i)
  {
    if k > 0 {
      MockFailingRuns(name, obs, k - 1);
      EmittedAt(name, obs, k - 1);
      StepEvent(name, obs[..k - 1], obs[k - 1]);
      assert obs[..k] == obs[..k - 1] + [obs[k - 1]];
      assert Fails(obs[k - 1]);
    }
  }

  /** The first five runs of the mock checker. */
  lemma MockPrefix(name: string, obs: seq<Observation>)
    requires |obs| == 5 && DrivenByMock(obs, 0, 5)
    ensures var ev := Emitted(name, obs);
      && |ev| == 5
      && ev[0].CheckFailed?
      && (forall i :: 1 <= i <= 3 ==> ev[i].StillFailing? && ev[i].recordedFailures == i)
      && ev[4].CheckRecovered? && ev[4].recordedFailures == 4
      && ev[4].failureDuration == obs[4].detectedAt - obs[0].detectedAt
  {
    MockFailingRuns(name, obs, 4);
    EmittedAt(name, obs, 4);
    StepEvent(name, obs[..4], obs[4]);
    assert obs[..5] == obs;
    assert !Fails(obs[4]);
  }
}
