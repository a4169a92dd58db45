# A verified model of the monitor health-check scheduler

This project models the core of `monitor`, a Go library that runs health
checks periodically. It keeps three things:

- a registry of check configurations (`Config`),
- a map from each check name to its running lane, or "runner",
- the latest `State` recorded for each check.

It also detects transitions: ok → failed, still failed, and failed → ok.
It reports each one to a status listener.

The model has five modules:

- `Types` (`types.dfy`): the `State` record, its `Status`, and the three
  listener notifications as the `Event` datatype.
- `Transitions` (`transitions.dfy`): how one probe run becomes a `State`
  (`NewEntry`), and the transition detector (`Detect`). `Detect` folds a new
  entry into the previous stored state and returns the state to store and
  the notification to send. `Run` and `Emitted` fold a whole sequence of
  observations of one check. The lemmas relate both folds to the trailing run
  of failures (`TrailingFailures`), a definition that does not use `Detect`.
- `Monitor` (`monitor.dfy`): the `Monitor` class. Its fields are `configs`
  (a `seq`), `runners` (a `map` from name to the config the lane was started
  with), `states` (a `map`), `started`, and two logs. `events` records the
  listener calls and `completions` records the `OnComplete` calls. Each
  lifecycle operation is a method that mutates these fields. It has the
  source's loops and error cases. A ghost `history` keeps each running lane's
  observations. `Valid()` says that every stored state is the fold of its
  lane's history.
- `HttpCheck` (`http.dfy`): the HTTP checker's configuration. `Prepare`
  fills in the defaults in place: status code 200, a 3-second timeout, and a
  client that uses that timeout. `NewHttp` validates the configuration and
  `Http.Status` compares status codes.
- `Scenarios` (`scenarios.dfy`): two of the source's listener and
  `OnComplete` tests, replayed through the public methods with the tests'
  mock checker.

Time is an abstract integer clock. An observation carries two readings.
`checkTime` is read when the `State` is built (monitor.go:162). `detectedAt`
is the reading the detector takes when it sees a new failure (monitor.go:249)
or a recovery (monitor.go:261). The time of the first failure and the
recovery duration come from that second reading. On a still-failing run or
an ok run after an ok run the source reads the clock only once, and
`detectedAt` is then not used.

In these cases the model follows what the code does, which a reader might
not expect:

- The first failure's time is the detection-time clock, not the check's own
  timestamp.
- `AddCheck` does not compare the names inside one batch with each other.
- `RemoveCheck` only stops a lane when the monitor is started. It then fails
  if that check has no lane, for instance a check added after `Start`.
- `StartCheck` starts a lane for the *last* config with that name. It works
  whether or not the monitor is started.

## Model

| member | source | states |
|---|---|---|
| `Monitor.Monitor.constructor` | monitor.go:25-37 | A new monitor has no configs, runners or states, is not started and has no listener. |
| `Monitor.Monitor.AddCheck` | monitor.go:39-50 | Succeeds exactly when no new config's name equals an existing config's name (case-sensitive). It then appends every new config in order, with no duplicate check inside the batch. Otherwise `configs` is unchanged and the error names the first existing config that collides. It keeps `Valid()`. |
| `Monitor.Monitor.RemoveCheck` | monitor.go:52-67 | An unknown name is an error and changes nothing. On a started monitor whose lane for that name is missing, the `StopCheck` error is returned and nothing changes. Otherwise it removes exactly the first config with that name and keeps the order of the rest. When started, it also drops that name's runner and state. |
| `Monitor.Monitor.Start` | monitor.go:69-81 | When already started it returns `AlreadyStarted` and changes nothing. Otherwise it sets `started` and adds one runner per registered config. For a given name the last config wins. Afterwards every registered name has a runner. |
| `Monitor.Monitor.StartRunnerForConfig` | monitor.go:83-91 | Records a runner for the config's name and replaces any runner already under that name. An existing lane keeps its history and its state. |
| `Monitor.Monitor.StopCheck` | monitor.go:93-110 | With no runner for the name: error, and runners and states are unchanged. Otherwise it removes exactly that name's runner and state. |
| `Monitor.Monitor.StartCheck` | monitor.go:112-128 | An unregistered name is an error, and so is a name that already has a runner. Otherwise it adds a runner for that name only, for the last config with that name. It does not read or set `started`. |
| `Monitor.Monitor.Stop` | monitor.go:130-146 | Always succeeds. Afterwards there are no runners and no states, and the monitor is not started. |
| `Monitor.Monitor.State` | monitor.go:148-150 | Returns exactly the stored states and no error. |
| `Monitor.Monitor.ResetStates` | monitor.go:200-205 | Afterwards the state store is empty. |
| `Monitor.Monitor.GetStates` | monitor.go:219-232 | The loop builds an entry-for-entry copy equal to the stored states. |
| `Monitor.Monitor.HandleStatusListener` | monitor.go:234-267 | Returns the detector's state for the entry, with the previous state read as a zero State when absent. It logs the detector's notification only when a listener is attached. |
| `Monitor.Monitor.UpdateState` | monitor.go:207-217 | Stores the detector's state under the entry's name, leaves all other states alone, and logs the notification. |
| `Monitor.Monitor.Tick` | monitor.go:155-176 | One probe run of a running lane. It stores the fold of the lane's history extended by this observation, and logs the listener notification and the `OnComplete` state when those are configured. It keeps `Valid()`. |
| `Monitor.Monitor.StoredStates` | monitor.go:158-171 | Under `Valid()`, every stored state is well formed and carries its own key as name. Its failure count equals its lane's trailing failures, and it is failing exactly when the last probe failed. |
| `Monitor.LastWithName` | monitor.go:113-118 | The result is absent exactly when no config has the name. Otherwise it is a config with that name that no later config shares. |
| `Monitor.RunnersOfLastWins` | monitor.go:76-78 | Starting all configs gives a runner to exactly the registered names, and each runner belongs to the last config of its name. |
| `Monitor.TracksAfterTick` | monitor.go:213-216 | Storing the detector's output for one more observation keeps every stored state equal to the fold of its lane's history. |
| `Types.IsFailureText` | types.go:48-51 | A state is failing exactly when its status text is "failed". |
| `Types.ZeroStateSettled` | monitor.go:238 | The zero State that an absent entry reads as is not failing and has a zero count. It is not a stored state. |
| `Transitions.NewEntry` | monitor.go:158-169 | Builds the entry of one probe run. Its promise is stated by `RunIsRecorded`: the stored state is "ok" or "failed" as the checker succeeded or failed, carries the checker's error text only when failed, and keeps the run's name, check time and payload. |
| `Transitions.Detect` | monitor.go:241-266 | The transition decision table. Its promise is stated by `StepEvent` and `RunTracksStreak` against the independent `TrailingFailures`, and by `DetectKeepsEntry`. |
| `Transitions.DetectKeepsEntry` | monitor.go:242-266 | The detector changes only the entry's first-failure time and count. It notifies exactly when the entry or the previous state is failing, and the listener receives the state that is stored. |
| `Transitions.TrailingFailures` | types.go:44 | The count is the length of the maximal trailing run of failing observations. |
| `Transitions.RunTracksStreak` | monitor.go:242-266 | For every observation sequence: the stored count equals the trailing failure run, the state is failing exactly when that run is non-empty, and the first-failure time is the detection time of the run's first failure. |
| `Transitions.RunIsRecorded` | monitor.go:158-171 | After at least one observation the stored state is "ok" or "failed". It has an error text only when failed, and that text is the checker's. It carries the last run's name, time and payload. |
| `Transitions.StepEvent` | monitor.go:235-267 | The notification for one more observation, against the trailing failures `t` before it. A failure with `t = 0` gives `CheckFailed`. A failure with `t > 0` gives `StillFailing(t)`, the count before the increment. Success with `t > 0` gives `CheckRecovered(t, now - first failure time)`. Success with `t = 0` gives nothing. |
| `Transitions.MockListenerCalls` | monitor_test.go:73-90 | Any run of five or more observations of a checker that fails its first four calls emits exactly five notifications. They are `CheckFailed`, then `StillFailing` with counts 1, 2 and 3, then `CheckRecovered` with count 4 and the duration since the first failure. |
| `Scenarios.ListenerScenario` | monitor_test.go:73-90 | The same result through the public methods: new monitor, `AddCheck`, `Start`, then one `Tick` per run. |
| `Scenarios.CompletionScenario` | monitor_test.go:55-71 | A config with `OnComplete` on a checker that passes once and then fails sends one state per run to the callback: "ok" first, then "failed". |
| `HttpCheck.HttpConfig.Prepare` | checks/http.go:86-107 | A missing URL is an error and changes nothing. Otherwise: status 0 becomes 200 and a non-zero status is kept; timeout 0 becomes 3 s and a non-zero timeout is kept. A missing client is replaced by a fresh one with that timeout. A given client is kept and its timeout is overwritten. Applying it to a prepared config changes nothing, so it is idempotent. |
| `HttpCheck.NewHttp` | checks/http.go:37-49 | A nil config gives no checker and `NilConfig`. A config without a URL gives no checker and the wrapped preparation error. Otherwise it gives a fresh checker over the same config, now prepared: status 200 and a 3 s timeout where they were zero, and a fresh client when none was given. A given client is kept. |
| `HttpCheck.Http.Status` | checks/http.go:51-68 | Succeeds exactly when a response arrived with the configured status code. A transport error is passed on, and a different code is an error naming both codes. |

## Left out

- Goroutines, tickers, sleeps, channels and mutexes are not modelled. A lane is an entry of `runners`, and one probe run is one call of `Tick`. Each `Tick` is atomic, so the read-then-write race between `handleStatusListener` and `safeUpdateState` is not modelled. Neither is a probe still in flight writing a state after its lane was stopped.
- `Monitor.Monitor.Tick` requires a running lane for the name, since only a lane runs probes. The interval schedule and the first immediate run are not modelled: callers choose when `Tick` happens.
- Listener and `OnComplete` calls are dispatched asynchronously in the source. The model appends them to `events` and `completions` in order. In the source, the `CheckFailed` goroutine is started before the entry's first-failure time and count are written (monitor.go:245-257), and the `StillFailing` goroutine after the first-failure time but before the count (monitor.go:252-257), so either may see the entry unfinished. The model always passes the finished entry.
- `Stop` closes every stop channel, waits one second and discards the runner map. The model only clears the runner map.
- Starting a name that already has a runner, which `Start` does for duplicate names or for a lane started earlier by `StartCheck`, replaces the stop channel in the source. The old goroutine leaks, cannot be stopped and keeps writing states. The model keeps one runner per name: the last config started.
- `RandomStartTimeMillis` jitter is timing only and is left out.
- `time.Time` and `time.Duration` are integers. Go's zero time is 0. The recovery duration is the integer clock difference, not float64 seconds.
- `ContiguousFailures` is an int64 in the source and a `nat` here. 64-bit overflow is not modelled.
- `Details` is an opaque payload that is only carried. JSON tags and serialisation are left out.
- The status string field is the `Status` datatype. Its `Text()` is "ok", "failed", or "" for the zero State, the only values the source gives it.
- A `Config`'s checker is not stored: the outcome of each probe is the input of `Tick`. `OnComplete` is only a flag. `Interval` is carried but unused, because scheduling is left out. `NewConfig` in config.go is a plain constructor without validation and is not modelled.
- Nil `*Config` values are not modelled; the model takes configs as values. In the source, `AddCheck` on an empty registry never reads a new config's name (monitor.go:41-47) and appends a nil config. The panic comes later, when `Start`, `StartCheck` or `RemoveCheck` reads its name. A nil config passed to `RemoveCheck` panics at once.
- The HTTP request itself is not modelled: `HTTP.do`, `http.NewRequest`, `Client.Do`, body draining and the measured elapsed time. `Http.Status` takes the request's outcome and the elapsed time as inputs.
- `url.URL` is reduced to an optional text. Only whether it is nil matters.
- All `fmt.Printf` logging is left out.
