/**
 * The Monitor aggregate: a registry of check configurations, the set of
 * running lanes (each remembered with the configuration it was started
 * from), the latest State per check and a started flag. Goroutines are not
 * modelled: a lane is an entry of `runners`, and one probe run of a lane is
 * one call of Tick. Listener and OnComplete calls are appended to logs.
 */
module Monitor {
  import opened Types
  import opened Transitions

  /** A check definition; the checker itself is the input of Tick. */
  datatype Config = Config(name: string, interval: int, hasOnComplete: bool)

  /** The monitor's lifecycle errors, one per message of the source. */
  datatype MonitorError =
    | DuplicateName(name: string)   // "config with name %s already exists"
    | NoCheckFound(name: string)    // "no check found with name %s"
    | FailedToFind(name: string)    // "failed to find check with name %s"
    | AlreadyRunning                // "check already running"
    | AlreadyStarted                // "monitor already started"

  function Names(cs: seq<Config>): set<string> {
    set c | c in cs :: c.name
  }

  /** The last configuration in `cs` called `name`, if any. */
  function LastWithName(cs: seq<Config>, name: string): (r: Option<Config>)
    ensures r.None? <==> name !in Names(cs)
    ensures r.Some? ==> exists i :: (0 <= i < |cs| && cs[i] == r.value && r.value.name == name &&
                                     forall j :: i < j < |cs| ==> cs[j].name != name)
    decreases |cs|
  {
    if cs == [] then None
    else if cs[|cs| - 1].name == name then Some(cs[|cs| - 1])
    else
      var prefix := cs[..|cs| - 1];
      assert cs == prefix + [cs[|cs| - 1]];
      LastWithName(prefix, name)
  }

  /** The runners that starting every configuration of `cs` in order leaves behind. */
  function RunnersOf(cs: seq<Config>): map<string, Config>
    decreases |cs|
  {
    if cs == [] then map[]
    else RunnersOf(cs[..|cs| - 1])[cs[|cs| - 1].name := cs[|cs| - 1]]
  }

  /** Starting every configuration gives each name one runner, for the last configuration of that name. */
  lemma {:induction false} RunnersOfLastWins(cs: seq<Config>)
    ensures RunnersOf(cs).Keys == Names(cs)
    ensures forall n :: n in RunnersOf(cs) ==> LastWithName(cs, n) == Some(RunnersOf(cs)[n])
    decreases |cs|
  {
    if cs != [] {
      var prefix := cs[..|cs| - 1];
      RunnersOfLastWins(prefix);
      assert cs == prefix + [cs[|cs| - 1]];
      assert Names(cs) == Names(prefix) + {cs[|cs| - 1].name};
    }
  }

  /** Starting one more configuration updates the runners of the earlier ones. */
  lemma RunnersOfExtend(before: map<string, Config>, cs: seq<Config>, i: nat)
    requires i < |cs|
    ensures before + RunnersOf(cs[..i + 1]) == (before + RunnersOf(cs[..i]))[cs[i].name := cs[i]]
  {
    assert cs[..i + 1][..i] == cs[..i];
  }

  /** A Go map read: the stored state, or the zero State when there is none. */
  function Lookup(states: map<string, State>, name: string): State {
    if name in states then states[name] else ZeroState
  }

  /**
   * The states of the lanes whose histories are `history`: a lane has a
   * stored state once it has observed something, and that state is the fold
   * of what it observed.
   */
  ghost predicate Tracks(states: map<string, State>, history: map<string, seq<Observation>>) {
    && states.Keys <= history.Keys
    && forall n :: n in history ==>
         (n in states <==> history[n] != []) && Lookup(states, n) == Run(n, history[n])
  }

  /** One more observation of a lane keeps its stored state the fold of its history. */
  lemma TracksAfterTick(states: map<string, State>, history: map<string, seq<Observation>>,
                        name: string, o: Observation)
    requires Tracks(states, history) && name in history
    ensures Tracks(states[name := After(name, Lookup(states, name), o).state],
                   history[name := history[name] + [o]])
  {
    Unfold(name, history[name], o);
    var states', history' := states[name := After(name, Lookup(states, name), o).state],
                             history[name := history[name] + [o]];
    forall n | n in history'
      ensures (n in states' <==> history'[n] != []) && Lookup(states', n) == Run(n, history'[n])
    {
      if n != name {
        assert history'[n] == history[n] && Lookup(states', n) == Lookup(states, n);
      }
    }
  }

  class Monitor {
    /** Whether a StatusListener is attached. */
    var listening: bool
    var configs: seq<Config>
    var states: map<string, State>
    /** The running lanes, each with the configuration it was started from. */
    var runners: map<string, Config>
    var started: bool
    /** Listener notifications, in the order they were dispatched. */
    var events: seq<Event>
    /** The states handed to OnComplete callbacks, in order. */
    var completions: seq<State>
    /** The observations each running lane has made since it was started. */
    ghost var history: map<string, seq<Observation>>

    /**
     * Every running lane has a history, only running lanes have a state,
     * and the state stored for a lane is the fold of its history.
     */
    ghost predicate Valid()
      reads this
    {
      && history.Keys == runners.Keys
      && Tracks(states, history)
    }

    constructor ()
      ensures Valid()
      ensures configs == [] && states == map[] && runners == map[] && !started
      ensures !listening && events == [] && completions == []
    {
      listening := false;
      configs := [];
      states := map[];
      runners := map[];
      started := false;
      events := [];
      completions := [];
      history := map[];
    }

    /**
     * Registers the configurations `cfg`, unless one of them is named like a
     * configuration already registered. Names within `cfg` are not compared
     * with each other.
     */
    method AddCheck(cfg: seq<Config>) returns (err: Option<MonitorError>)
      requires Valid()
      modifies this`configs
      ensures Valid()
      ensures err.None? <==> Names(old(configs)) !! Names(cfg)
      ensures err.Some? ==> exists i :: (0 <= i < |old(configs)| &&
                                         err.value == DuplicateName(old(configs)[i].name) &&
                                         old(configs)[i].name in Names(cfg) &&
                                         forall k :: 0 <= k < i ==> old(configs)[k].name !in Names(cfg))
      ensures configs == if err.None? then old(configs) + cfg else old(configs)
    {
      for i := 0 to |configs|
        invariant forall k :: 0 <= k < i ==> configs[k].name !in Names(cfg)
      {
        for j := 0 to |cfg|
          invariant forall l :: 0 <= l < j ==> cfg[l].name != configs[i].name
        {
          if cfg[j].name == configs[i].name {
            assert configs[i].name in Names(configs) && cfg[j].name in Names(cfg);
            return Some(DuplicateName(cfg[j].name));
          }
        }
      }
      configs := configs + cfg;
      return None;
    }

    /**
     * Unregisters the first configuration named like `cfg`. On a started
     * monitor its lane is stopped first, and when that fails nothing is removed.
     */
    method RemoveCheck(cfg: Config) returns (err: Option<MonitorError>)
      requires Valid()
      modifies this`configs, this`runners, this`states, this`history
      ensures Valid()
      ensures cfg.name !in Names(old(configs)) ==>
        err == Some(NoCheckFound(cfg.name)) && unchanged(this)
      ensures cfg.name in Names(old(configs)) && started && cfg.name !in old(runners) ==>
        err == Some(FailedToFind(cfg.name)) && unchanged(this)
      ensures cfg.name in Names(old(configs)) && (!started || cfg.name in old(runners)) ==>
        && err.None?
        && (exists i :: 0 <= i < |old(configs)| && old(configs)[i].name == cfg.name
              && (forall k :: 0 <= k < i ==> old(configs)[k].name != cfg.name)
              && configs == old(configs)[..i] + old(configs)[i + 1..])
        && runners == (if started then old(runners) - {cfg.name} else old(runners))
        && states == (if started then old(states) - {cfg.name} else old(states))
    {
      for idx := 0 to |configs|
        invariant forall k :: 0 <= k < idx ==> configs[k].name != cfg.name
      {
        if cfg.name == configs[idx].name {
          if started {
            err := StopCheck(cfg.name);
            if err.Some? {
              return;
            }
          }
          configs := configs[..idx] + configs[idx + 1..];
          return None;
        }
      }
      return Some(NoCheckFound(cfg.name));
    }

    /** Marks the monitor started and starts a lane for every registered configuration. */
    method Start() returns (err: Option<MonitorError>)
      requires Valid()
      modifies this`started, this`runners, this`history
      ensures Valid()
      ensures old(started) ==> err == Some(AlreadyStarted) && unchanged(this)
      ensures !old(started) ==> err.None? && started && runners == old(runners) + RunnersOf(configs)
      ensures !old(started) ==> Names(configs) <= runners.Keys
    {
      if started {
        return Some(AlreadyStarted);
      }
      started := true;
      for i := 0 to |configs|
        invariant Valid() && started
        invariant runners == old(runners) + RunnersOf(configs[..i])
      {
        RunnersOfExtend(old(runners), configs, i);
        StartRunnerForConfig(configs[i]);
      }
      assert configs[..|configs|] == configs;
      RunnersOfLastWins(configs);
      return None;
    }

    /**
     * The registry part of starting a lane for `c`: the lane is recorded under
     * `c.name`, replacing a lane of that name if there is one.
     */
    method StartRunnerForConfig(c: Config)
      requires Valid()
      modifies this`runners, this`history
      ensures Valid()
      ensures runners == old(runners)[c.name := c]
      ensures c.name in old(runners) ==> history == old(history)
    {
      runners := runners[c.name := c];
      if c.name !in history {
        history := history[c.name := []];
      }
    }

    /** Stops the lane called `name` and forgets its state. */
    method StopCheck(name: string) returns (err: Option<MonitorError>)
      requires Valid()
      modifies this`runners, this`states, this`history
      ensures Valid()
      ensures name !in old(runners) ==> err == Some(FailedToFind(name)) && unchanged(this)
      ensures name in old(runners) ==>
        err.None? && runners == old(runners) - {name} && states == old(states) - {name}
    {
      if name in runners {
        runners := runners - {name};
        history := history - {name};
      } else {
        return Some(FailedToFind(name));
      }
      states := states - {name};
      return None;
    }

    /**
     * Starts a lane for the last configuration called `name`, whether or not
     * the monitor is started, unless no such configuration exists or a lane
     * of that name is already running.
     */
    method StartCheck(name: string) returns (err: Option<MonitorError>)
      requires Valid()
      modifies this`runners, this`history
      ensures Valid()
      ensures name !in Names(configs) ==> err == Some(FailedToFind(name)) && unchanged(this)
      ensures name in Names(configs) && name in old(runners) ==> err == Some(AlreadyRunning) && unchanged(this)
      ensures name in Names(configs) && name !in old(runners) ==>
        err.None? && runners == old(runners)[name := LastWithName(configs, name).value]
    {
      var found: Option<Config> := None;
      for i := 0 to |configs|
        invariant found == LastWithName(configs[..i], name)
      {
        assert configs[..i + 1][..i] == configs[..i];
        if name == configs[i].name {
          found := Some(configs[i]);
        }
      }
      assert configs[..|configs|] == configs;
      if found.None? {
        return Some(FailedToFind(name));
      }
      if name in runners {
        return Some(AlreadyRunning);
      } else {
        StartRunnerForConfig(found.value);
      }
      return None;
    }

    /** Stops every lane, forgets every state and marks the monitor stopped. */
    method Stop() returns (err: Option<MonitorError>)
      requires Valid()
      modifies this`runners, this`states, this`started, this`history
      ensures Valid()
      ensures err.None? && runners == map[] && states == map[] && !started
    {
      runners := map[];
      history := map[];
      ResetStates();
      started := false;
      return None;
    }

    /** The stored states, copied; never an error. */
    method State() returns (r: map<string, State>, err: Option<MonitorError>)
      ensures r == states && err.None?
    {
      r := GetStates();
      err := None;
    }

    method ResetStates()
      modifies this`states
      ensures states == map[]
    {
      states := map[];
    }

    /** An entry-for-entry copy of the stored states. */
    method GetStates() returns (copy: map<string, State>)
      ensures copy == states
    {
      copy := map[];
      var todo := states.Keys;
      while todo != {}
        invariant todo <= states.Keys
        invariant copy.Keys == states.Keys - todo
        invariant forall k :: k in copy ==> copy[k] == states[k]
        decreases todo
      {
        var k :| k in todo;
        copy := copy[k := states[k]];
        todo := todo - {k};
      }
    }

    /**
     * Folds `entry` into the state stored under its name, notifies the listener
     * of the transition if one is attached, and returns the finished entry. The
     * stored state is not written here.
     */
    method HandleStatusListener(entry: State, now: int) returns (finished: State)
      modifies this`events
      ensures var step := Detect(Lookup(states, entry.name), entry, now);
        && finished == step.state
        && events == old(events) + (if listening then EventsOf(step.event) else [])
    {
      var step := Detect(Lookup(states, entry.name), entry, now);
      if listening && step.event.Some? {
        events := events + [step.event.value];
      }
      finished := step.state;
    }

    /** Runs the transition detector on `entry` and stores its outcome. */
    method UpdateState(entry: State, now: int) returns (finished: State)
      modifies this`events, this`states
      ensures var step := Detect(Lookup(old(states), entry.name), entry, now);
        && finished == step.state
        && states == old(states)[entry.name := finished]
        && events == old(events) + (if listening then EventsOf(step.event) else [])
    {
      finished := HandleStatusListener(entry, now);
      states := states[entry.name := finished];
    }

    /**
     * One probe run of the lane called `name`: the checker's `result` is
     * turned into a State at `checkTime`, the transition is detected at
     * `detectedAt`, and OnComplete receives the stored state when the lane's
     * configuration has one.
     */
    method Tick(name: string, result: ProbeResult, checkTime: int, detectedAt: int)
      requires Valid() && name in runners
      modifies this`events, this`states, this`completions, this`history
      ensures Valid()
      ensures var step := After(name, Run(name, old(history)[name]), Observation(result, checkTime, detectedAt));
        && states == old(states)[name := step.state]
        && events == old(events) + (if listening then EventsOf(step.event) else [])
        && completions == old(completions) + (if runners[name].hasOnComplete then [step.state] else [])
      ensures states[name] == Run(name, history[name])
      ensures history == old(history)[name := old(history)[name] + [Observation(result, checkTime, detectedAt)]]
    {
      var o := Observation(result, checkTime, detectedAt);
      ghost var step := After(name, Lookup(states, name), o);
      TracksAfterTick(states, history, name, o);
      history := history[name := history[name] + [o]];
      var entry := NewEntry(name, result, checkTime);
      var finished := UpdateState(entry, detectedAt);
      assert finished == step.state;
      if runners[name].hasOnComplete {
        completions := completions + [finished];
      }
    }

    /**
     * Every stored state is well formed, belongs to its key, and counts exactly
     * the trailing failures its lane has observed.
     */
    lemma StoredStates()
      requires Valid()
      ensures forall n :: n in states ==>
        && Recorded(states[n]) && states[n].name == n
        && states[n].contiguousFailures == TrailingFailures(history[n])
        && (states[n].IsFailure() <==> Fails(history[n][|history[n]| - 1]))
    {
      forall n | n in states
        ensures Recorded(states[n]) && states[n].name == n
        ensures states[n].contiguousFailures == TrailingFailures(history[n])
        ensures states[n].IsFailure() <==> Fails(history[n][|history[n]| - 1])
      {
        RunIsRecorded(n, history[n]);
        RunTracksStreak(n, history[n]);
      }
    }
  }
}
