# DistAlgo single-process event engine, in Dafny

This project models the event engine of one DistAlgo process, `DistProcess` in
`dpy/sim.py`, and proves properties about it. The engine's state is:

- the Lamport clock;
- the FIFO event queue;
- the job queue of `(handler, bindings)` pairs;
- the fault-rate table;
- the running flag;
- the label timer, its expired flag and the usage-timer flag;
- the received-message list;
- the history containers, one per pattern name.

Operations that change that state are methods of the class `Sim.DistProcess`,
with field-granular `modifies` clauses. Each method is proved against a pure
specification function:

| Method | Specification function |
|---|---|
| handshake loop | `Handshake.Run` |
| dispatch of one event | `PatternDispatch.Dispatch` |
| one pass over the job queue | `JobQueue.ScanJobs` |
| second half of a label checkpoint | `Sim.EventAndJobs` |
| removal from the received list | `ReceivedQueue.RemoveFirst` |

The properties the code promises are lemmas about those functions. The main
lemmas compare a function with an independent reference definition, such as
`Waiting`/`Runnable` for the scan, `Added` for dispatch and `SetupArgs` for the
handshake.

Inputs that come from outside the process are parameters:

- the random draw of `random.randint(0, 100)`, an integer in 0..100;
- the current time, as an integer;
- the result of matching each registered pattern, `Option<Bindings>`;
- the result of each channel send, a `bool`;
- the outcome of each handler call, `Returned`, `RaisedTypeError` or `RaisedOther`, given by
  the call's position in the pass and the job it is made on, so that a stateful handler can
  behave differently on two equal jobs.

The draw includes both 0 and 100, as `random.randint(0, 100)` does at
`dpy/sim.py:249`, so a rate of 100 survives a draw of 100.

Modules:

- `Wrappers`: the `Option` datatype.
- `Events`: values, events and their tuples, handlers, jobs, patterns and history policies.
- `LamportClock`: the `max(clock, timestamp) + 1` update.
- `Faults`: `_fails`.
- `JobQueue`: `_process_jobqueue` as a specification.
- `PatternDispatch`: `_trigger_event` as a specification.
- `Handshake`: the `_wait_for_go` command protocol.
- `ReceivedQueue`: `list.remove`.
- `Sim`: the process class.

## Model

| member | source | states |
|---|---|---|
| LamportClock.Tick | dpy/sim.py:306 | the new clock exceeds both the old clock and the event's timestamp, and is one more than one of them |
| LamportClock.ClockAfterBounds | dpy/sim.py:302-309 | after consuming n events the clock has grown by at least n and exceeds every consumed timestamp |
| LamportClock.ClockStrictlyIncreases | dpy/sim.py:302-309 | the clock values after successive events strictly increase, whatever the timestamps, and each exceeds the stamp just consumed |
| Faults.Fails | dpy/sim.py:246-251 | a class missing from the table never fails; rate 0 or below never fails; rate 100 fails on every draw except 100; a rate above 100 always fails |
| Faults.FailureOdds | dpy/sim.py:246-251 | exactly `rate` of the 101 equally likely draws fail (clamped to 0..101); none fail for an unknown class |
| Faults.BelowSize | dpy/sim.py:249 | the draws below k are exactly 0..k-1, k of them |
| PatternDispatch.DispatchJobs | dpy/sim.py:323-333 | dispatch keeps the jobs already queued at the front; after them it appends, in pattern order, one job per handler of each matching pattern, each with that match's bindings, and nothing for a non-matching pattern (reference definition `Added`) |
| PatternDispatch.AddedAppend | dpy/sim.py:323-333 | one more pattern adds exactly its own contribution at the end of the reference job list |
| PatternDispatch.NoMatchNoChange | dpy/sim.py:323-326 | an event that no pattern matches leaves the job queue and every history container unchanged |
| PatternDispatch.DispatchLeavesOthers | dpy/sim.py:327-331 | a container that no pattern is named after is untouched by dispatch |
| PatternDispatch.DispatchHistoryAt | dpy/sim.py:327-331 | with distinct pattern names, a pattern's container changes only when that pattern matched: `True` appends the event tuple, `None` leaves it, any other policy applies the updater |
| PatternDispatch.AppendHistoryReplays | dpy/sim.py:327-328 | with distinct pattern names, after any number of triggered events, an append-policy container holds its old contents followed by the tuples of exactly the events its pattern matched, in trigger order |
| PatternDispatch.Step | dpy/sim.py:325-333 | one pattern with a match records the event tuple by its policy and queues one job per handler with the match's bindings; without a match nothing changes; the set of containers is kept |
| PatternDispatch.Updated | dpy/sim.py:327-331 | definition: `True` appends the tuple, `None` leaves the container, any other policy applies its updater |
| PatternDispatch.Dispatch | dpy/sim.py:323-333 | dispatch keeps the set of history containers |
| PatternDispatch.HandlerJobs | dpy/sim.py:332-333 | one job per handler, in handler order, all carrying the same bindings |
| JobQueue.Admissible | dpy/sim.py:284-285 | definition: a handler admits a label when its inclusion set is absent or holds it, and its exclusion set is absent or lacks it |
| JobQueue.ScanJobs | dpy/sim.py:281-292 | definition: one pass over the queue from the front; an admissible job is called (its outcome indexed by call position) and dropped, an inadmissible one is kept, and a call raising anything but `TypeError` stops the pass |
| JobQueue.ScanCompletesIff | dpy/sim.py:283-289 | the pass completes iff none of the calls it would make on the admissible jobs, in queue order, raises an exception other than `TypeError` |
| JobQueue.EqualJobsMayDiffer | dpy/sim.py:286-287 | two equal queued jobs can behave differently: a handler that returns on its first call and raises on its second is called on both and stops the pass |
| JobQueue.ScanMatchesFilters | dpy/sim.py:281-292 | a completed pass leaves exactly the inadmissible jobs in their original order, and calls the admissible ones in FIFO order, including those raising `TypeError` |
| JobQueue.ScanAbortShape | dpy/sim.py:283-289 | a pass stopped by a raising handler has called a prefix of the admissible jobs, in order; the last call raised and no earlier call did |
| JobQueue.CompletedRanReturned | dpy/sim.py:286-289 | every handler a completed pass called returned or raised `TypeError` |
| JobQueue.AbortSticks | dpy/sim.py:286-289 | once a handler has raised, later jobs are never reached |
| JobQueue.FiltersAppend | dpy/sim.py:283-291 | both filters distribute over concatenation of queues |
| JobQueue.FilterMembers | dpy/sim.py:284-285 | the surviving jobs are exactly the queued jobs whose handler does not admit the label, and the run jobs exactly those it admits |
| JobQueue.FiltersPartition | dpy/sim.py:281-292 | the survivors and the run jobs together are the old queue as a multiset: no job is lost or duplicated |
| JobQueue.WaitingKeepsCopies | dpy/sim.py:290-291 | every copy of a job its label does not admit survives, and no copy of an admissible one does |
| JobQueue.RescanRunsNothing | dpy/sim.py:281-292 | checking the survivors again at the same label runs nothing and keeps them all |
| Handshake.Run | dpy/sim.py:110-123 | definition: read commands from index `i`; "start" ends the loop as started, a command that raises ends it as rejected, any other command is applied and the loop goes on, and running out of commands leaves it waiting |
| Handshake.Apply | dpy/sim.py:117-123 | definition: `setup` records its arguments; `send_fail_rate`, `receive_fail_rate` and `crash_rate` with one integer set their key of the rate table (dpy/sim.py:369-376); `event_timeout` and `name` with one argument set their attribute (dpy/sim.py:378-382); anything else raises |
| Handshake.RunShape | dpy/sim.py:108-123 | the loop stops at the first "start" and only there: every command read before the last is an `(inst, args)` command, and the last is "start" exactly when the process is started |
| Handshake.ConsumedBounds | dpy/sim.py:110-123 | corollary of `RunShape`: the loop reads commands from where it starts up to its stopping point, never past the end |
| Handshake.SetupAtStop | dpy/sim.py:113-123 | the command the loop stops at ("start", or one that raised) makes no `setup` call |
| Handshake.LaterCommandsUnread | dpy/sim.py:113-116 | commands after "start", or after a command that raised, are never read |
| Handshake.SetupOncePerCommand | dpy/sim.py:119-120 | `setup` is called once per `("setup", args)` command read, with its arguments, in order (reference definition `SetupArgs`) |
| Handshake.ApplyChangesOnlyItsOwn | dpy/sim.py:119-123 | one command changes only the attribute its setter names |
| Handshake.SetupCallsStep | dpy/sim.py:119-120 | a command adds to the `setup` calls exactly when it is a `setup` command |
| Handshake.RateKeysBounded | dpy/sim.py:369-376 | the handshake adds no fault class other than send, receive and crash |
| Handshake.RateKeptUnlessSet | dpy/sim.py:369-376 | a fault class that no command read sets keeps its rate (or stays absent) |
| Handshake.TimeoutKeptUnlessSet | dpy/sim.py:378-379 | the event timeout keeps its value unless a command names `event_timeout` |
| Handshake.NameKeptUnlessSet | dpy/sim.py:381-382 | the process name keeps its value unless a command names `name` |
| Handshake.SpawnSequence | dpy/sim.py:207-208 | the parent's `("setup", args)` then "start" runs `setup` once with `args`, changes nothing else, and is read in full |
| ReceivedQueue.RemoveFirst | dpy/sim.py:341 | definition: the list without the first element equal to the message; the properties are in the lemmas below |
| ReceivedQueue.FirstIndex | dpy/sim.py:341 | the index found holds the message and no earlier index does |
| ReceivedQueue.RemoveAbsent | dpy/sim.py:341-344 | removing a message that is not in the list leaves the list unchanged |
| ReceivedQueue.RemovePresent | dpy/sim.py:341-342 | removing a message that is in the list cuts out exactly its first occurrence |
| ReceivedQueue.RemoveFirstCount | dpy/sim.py:341-342 | exactly one copy of a present message is removed, and nothing when it is absent |
| Sim.Transmissions | dpy/sim.py:221-226 | definition: one `(dest, data, id, clock)` message per destination, in destination order |
| Sim.SentEventOf | dpy/sim.py:229-230 | definition: the SENT event with the data as message, the sender's clock as timestamp and the sender as source |
| Sim.ReceivedEventOf | dpy/sim.py:65-69 | definition: the RECEIVED event with message `data`, timestamp `clock`, source `src` and no destination |
| Sim.TimeLeft | dpy/sim.py:271 | definition: the timeout minus the time elapsed since the timer started, the timer starting at `now` when it is not running |
| Sim.EventAndJobs | dpy/sim.py:278-279 | the checkpoint suspends exactly when the queue is empty, the get blocks and there is no deadline, and then nothing changes; a taken event leaves the queue and moves the clock up (dpy/sim.py:302-309); an empty queue keeps the clock and the histories; calls are only appended; the set of history containers is kept |
| Sim.TransmissionsPerDestination | dpy/sim.py:221-226 | a send produces one message per destination, in order, each carrying the data, the sender's id and the same clock value |
| Sim.DistProcess.constructor | dpy/sim.py:74-106 | a new process has clock 0, empty queues, rates 0 for send, receive and crash, no timeout, no timer, and is not running |
| Sim.DistProcess.SetSendFailRate | dpy/sim.py:369-370 | sets the send rate and only it |
| Sim.DistProcess.SetReceiveFailRate | dpy/sim.py:372-373 | sets the receive rate and only it |
| Sim.DistProcess.SetCrashRate | dpy/sim.py:375-376 | sets the crash rate and only it |
| Sim.DistProcess.SetEventTimeout | dpy/sim.py:378-379 | sets the event timeout and only it |
| Sim.DistProcess.SetName | dpy/sim.py:381-382 | sets the process name and only it |
| Sim.DistProcess.Setup | dpy/sim.py:119-120 | records one call of `setup` with its arguments |
| Sim.DistProcess.ApplyCommand | dpy/sim.py:117-123 | one `(inst, args)` command changes the configuration exactly as `Apply` says, and nothing when it raises |
| Sim.DistProcess.WaitForGo | dpy/sim.py:108-123 | the loop ends in the state `Run` gives; the running flag is set exactly when "start" was read |
| Sim.DistProcess.LogicalClock | dpy/sim.py:359-361 | returns the clock |
| Sim.DistProcess.IncrLogicalClock | dpy/sim.py:363-365 | the clock increases by exactly one |
| Sim.DistProcess.StartTimers | dpy/sim.py:158-162 | the usage-timer flag is set, idempotently |
| Sim.DistProcess.StopTimers | dpy/sim.py:164-170 | the usage-timer flag is cleared, idempotently |
| Sim.DistProcess.TimerStart | dpy/sim.py:239-241 | the label timer starts at the given time and the expired flag is cleared |
| Sim.DistProcess.TimerEnd | dpy/sim.py:243-244 | the label timer is cleared |
| Sim.DistProcess.Send | dpy/sim.py:215-232 | the clock increases once per call whatever the number of destinations; on a send fault the result is false, nothing is transmitted and no SENT event is triggered; otherwise the result is true iff every channel send returned true, every destination receives the data stamped with the new clock, and the SENT event stamped with the new clock is dispatched |
| Sim.DistProcess.Transmit | dpy/sim.py:220-226 | one message per destination in order, stamped with the current clock; the result is true iff every channel send returned true |
| Sim.DistProcess.EnqueueReceived | dpy/sim.py:61-70 | a delivered message joins the end of the event queue as a RECEIVED event, unless the receive fault fires |
| Sim.DistProcess.HasReceived | dpy/sim.py:339-344 | the result says whether the message was in the received list, and its first occurrence is removed |
| Sim.DistProcess.EnqueueHandlers | dpy/sim.py:332-333 | appends one job per handler, in order, with the given bindings |
| Sim.DistProcess.TriggerPattern | dpy/sim.py:325-333 | one pattern's part of a trigger is exactly `Step` |
| Sim.DistProcess.TriggerEvent | dpy/sim.py:314-333 | visiting the patterns in registration order has exactly the effect of `Dispatch`, and every recording pattern keeps its container |
| Sim.DistProcess.ProcessEvent | dpy/sim.py:294-312 | an empty queue changes neither the clock, the job queue nor the histories; otherwise the front event is removed, the clock becomes `max(clock, timestamp) + 1` and the event is dispatched |
| Sim.DistProcess.ProcessJobqueue | dpy/sim.py:281-292 | the calls made and the new queue are those of `ScanJobs`; a handler that raises something other than `TypeError` leaves the queue as it was |
| Sim.DistProcess.CheckTimeout | dpy/sim.py:268-275 | the timer starts at `now` if it was not running; once no time is left the timer is cleared and the expired flag is set |
| Sim.DistProcess.Label | dpy/sim.py:253-279 | "start" and "end" set and clear the usage-timer flag; a crash fault ends the checkpoint before the event or job queue is touched; an expired timeout clears the timer, sets the expired flag and runs nothing; otherwise the event step, then the job queue at this label |
| Sim.DistProcess.EventThenJobs | dpy/sim.py:278-279 | the event step followed by the job queue has exactly the effect of `EventAndJobs` |
| Sim.DistProcess.Purge | dpy/sim.py:188-196 | every history container whose name has the prefix is emptied; the others are unchanged |
| Sim.DistProcess.PurgeReceived | dpy/sim.py:188-191 | every `_receive_messages_` container is emptied; the others are unchanged |
| Sim.DistProcess.PurgeSent | dpy/sim.py:193-196 | every `_sent_messages_` container is emptied; the others are unchanged |

## Left out

- Processes, signals and pipes (`run`, `spawn`, `_sighandler`, `os.kill`): operating-system plumbing. Only the command semantics of `_wait_for_go` is modelled. `SpawnSequence` states what a parent's `spawn` sends.
- The `Comm` thread and `queue.Queue`: their point is concurrency. The event queue is a sequence, fed by `EnqueueReceived`, which applies the receive fault to each message.
- Channel transport (`recvmesgs`, `t.send`) and the reports to the parent (`self._parent.send`): these are foreign calls. Send results are a parameter, and the reports are dropped.
- `random.randint`, `time.time`, `time.clock`, `os.times`: the draw and the current time are integer parameters. Only the usage-timer flag is kept, not the float CPU and wall-clock accumulators.
- `Sim.DistProcess.Label`: the two readings of `time.time()` are one `now` parameter, and time is an integer rather than a float.
- `Sim.DistProcess.ProcessEvent`: waiting is not modelled. The clamp of a negative timeout to 0 at `dpy/sim.py:301-302` matters because `queue.Queue.get(True, t)` with `t < 0` raises `ValueError` even on a non-empty queue; that error would be swallowed at `dpy/sim.py:310-312` and no event taken. The model keeps the clamp's effect: the second `ensures` of `ProcessEvent` gives `step == Handled` and takes the front event whenever the queue is not empty, whatever the timeout. A blocking get on an empty queue with no deadline returns `Blocked`, and `Label` then ends with `Suspended`, instead of waiting for the receive thread.
- `Sim.DistProcess.ProcessEvent`: the `except Exception` at `dpy/sim.py:310-312` is not modelled. It catches a `max` that cannot compare the timestamp (line 306), a raising `p.match` (line 325), `.append` on a container that is not a list (line 328), a raising custom updater (line 331) and a missing container (lines 328 and 331). In each case the event is already popped, the clock may already have moved, the jobs of the earlier patterns stay queued and the later patterns are skipped. The model does not capture this partial dispatch: match results and updaters are total, and containers are lists that exist.
- `pattern.match` and handler bodies are opaque. Match results and handler outcomes are parameters, and handlers are assumed not to change the job queue.
- `JobQueue.ScanJobs`: handler side effects other than the outcome are not modelled. Each pass takes its own outcome function, indexed by call position, so a handler whose behaviour depends on its earlier calls is covered; what the handler does to the rest of the process is not.
- `Sim.DistProcess.Valid`: every pattern that records history has a container, so the attribute lookup at `dpy/sim.py:328` and `dpy/sim.py:331` never fails. The model does not capture the `AttributeError` the code would raise otherwise.
- `PatternDispatch.DispatchHistoryAt`: requires distinct pattern names. Two patterns sharing a container would both update it in turn, and the lemma does not describe that case.
- `PatternDispatch.AppendHistoryReplays`: requires distinct pattern names, for the same reason. Two append-policy patterns sharing a container that both match an event append its tuple twice, which the lemma does not describe.
- A `record_history` value other than `True`, `None` or a callable is not modelled.
- The custom history updater is a pure function from the old container to the new one. The Python stub changes the list in place.
- Every job queued by one pattern carries the same bindings. The model does not capture that in Python these are one shared `dict`.
- `Handshake.Apply`: a rate setter given a non-integer argument is rejected and ends the handshake. Python stores any value. A float rate such as 2.5 then works normally in the comparison at `dpy/sim.py:249`; the model's `Value` has no floats, so it cannot express such a rate. A value that cannot be compared with an integer makes `_fails` raise later.
- `Handshake.Apply`: `setup` is assumed to accept any arguments. A user-defined `setup` with the wrong arity raises `TypeError`, and the model does not capture that.
- `Sim.SentEventOf`: `pattern.py` is not part of this model. The SENT event's fields come from the positional call at `dpy/sim.py:229-230`: `_id` becomes the source, the clock the timestamp and `data` the message.
- `Sim.DistProcess.Purge`: the history containers stand for the attributes found by `dir(self)`. Other attributes with the same prefix are not modelled.
- `exit`, `output`, `report_times`, `report_mem`, `__str__`, logging, `work` and `_forever_message_loop`: I/O and foreign libraries. The crash exit (`SystemExit(10)`) is the `Crashed` outcome of a label checkpoint.
