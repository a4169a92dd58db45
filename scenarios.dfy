/**
 * Two runs of the monitor's public operations against the test suite's
 * mock checker, checked against what its listener and OnComplete tests
 * expect. Each lane run happens at the clock readings the caller supplies.
 */
module Scenarios {
  import opened Types
  import opened Transitions
  import opened Monitor

  /** A new monitor, with or without a listener, on which `c` is registered and started. */
  method StartedWith(c: Config, listening: bool) returns (m: Monitor)
    ensures fresh(m) && m.Valid() && m.listening == listening
    ensures m.runners == map[c.name := c] && m.history == map[c.name := []]
    ensures m.events == [] && m.completions == []
  {
    m := new Monitor();
    m.listening := listening;
    var err := m.AddCheck([c]);
    assert Names(m.configs) == {c.name};
    err := m.Start();
    assert m.runners == RunnersOf([c]);
  }

  /**
   * A monitor with a listener and one check whose checker fails its first
   * four calls, started and run once per entry of `times`: the listener
   * receives one CheckFailed, three StillFailing with the counts 1, 2 and 3,
   * and one CheckRecovered with count 4, lasting from the first failure to
   * the recovery.
   */
  method ListenerScenario(times: seq<int>) returns (events: seq<Event>)
    requires |times| >= 5
    ensures |events| == 5
    ensures events[0].CheckFailed?
    ensures forall i :: 1 <= i <= 3 ==> events[i].StillFailing? && events[i].recordedFailures == i
    ensures events[4].CheckRecovered? && events[4].recordedFailures == 4
    ensures events[4].failureDuration == times[4] - times[0]
  {
    var m := StartedWith(Config("test", 100, false), true);
    for k := 0 to |times|
      invariant m.Valid() && "test" in m.runners && m.listening
      invariant m.history["test"] == MockRuns(0, 5, times[..k])
      invariant m.events == Emitted("test", m.history["test"])
    {
      ghost var before := m.history["test"];
      var o := Observation(MockResult(0, 5, k + 1), times[k], times[k]);
      Unfold("test", before, o);
      MockRunsExtend(0, 5, times, k);
      m.Tick("test", o.result, o.checkTime, o.detectedAt);
      assert m.history["test"] == before + [o];
    }
    assert times[..|times|] == times;
    MockListenerCalls("test", m.history["test"]);
    events := m.events;
  }

  /** The observations of a lane on the mock checker, run at the clock readings `times`. */
  function MockRuns(failAfter: int, recoverAfter: int, times: seq<int>): (obs: seq<Observation>)
    ensures |obs| == |times| && DrivenByMock(obs, failAfter, recoverAfter)
    ensures forall i :: 0 <= i < |times| ==> obs[i].detectedAt == times[i]
  {
    seq(|times|, i requires 0 <= i < |times| =>
      Observation(MockResult(failAfter, recoverAfter, i + 1), times[i], times[i]))
  }

  lemma MockRunsExtend(failAfter: int, recoverAfter: int, times: seq<int>, k: nat)
    requires k < |times|
    ensures MockRuns(failAfter, recoverAfter, times[..k + 1])
         == MockRuns(failAfter, recoverAfter, times[..k])
            + [Observation(MockResult(failAfter, recoverAfter, k + 1), times[k], times[k])]
  {
    var a, b := MockRuns(failAfter, recoverAfter, times[..k + 1]), MockRuns(failAfter, recoverAfter, times[..k]);
    assert forall i :: 0 <= i < k ==> a[i] == b[i];
  }

  /**
   * A check with an OnComplete callback, run once per entry of `times` on a
   * checker that passes its first call and fails the next ones: the
   * callback receives one state per run, an "ok" state first and then
   * "failed" ones.
   */
  method CompletionScenario(times: seq<int>) returns (completed: seq<State>)
    requires 2 <= |times| < 300
    ensures |completed| == |times|
    ensures completed[0].status == StatusOk
    ensures forall i :: 1 <= i < |times| ==> completed[i].status == StatusFailed
  {
    var m := StartedWith(Config("test", 100, true), false);
    for k := 0 to |times|
      invariant m.Valid() && "test" in m.runners && m.runners["test"].hasOnComplete
      invariant m.history["test"] == MockRuns(1, 300, times[..k])
      invariant |m.completions| == k
      invariant k > 0 ==> m.completions[0].status == StatusOk
      invariant forall i :: 1 <= i < k ==> m.completions[i].status == StatusFailed
    {
      ghost var before, done := m.history["test"], m.completions;
      var o := Observation(MockResult(1, 300, k + 1), times[k], times[k]);
      MockRunsExtend(1, 300, times, k);
      RunIsRecorded("test", before + [o]);
      m.Tick("test", o.result, o.checkTime, o.detectedAt);
      assert m.history["test"] == before + [o];
      assert m.completions == done + [m.states["test"]];
    }
    completed := m.completions;
  }
}
