/**
 * One DistAlgo process as a state machine: the Lamport clock, the event
 * queue (fed by an explicit receive operation), the job queue, the
 * fault-rate table, the running flag, the label timer and its flags, the
 * received-message list and the history containers. Random draws, the
 * current time, pattern match results, channel send results and the
 * outcome of calling a handler are parameters.
 */
module Sim {
  import opened Wrappers
  import opened Events
  import opened LamportClock
  import opened Faults
  import opened JobQueue
  import opened PatternDispatch
  import opened Handshake
  import opened ReceivedQueue

  /** Where a message goes: one destination, or an iterable of destinations. */
  datatype Destination = Single(p: ProcessId) | Many(ps: seq<ProcessId>)

  function Targets(to: Destination): seq<ProcessId> {
    match to
    case Single(p) => [p]
    case Many(ps) => ps
  }

  /** A message handed to the channel: `(data, sender id, sender clock)` for `dest`. */
  datatype Transmission = Transmission(dest: ProcessId, data: Value, from: ProcessId, clock: int)

  /** The messages of one send, one per destination in order, all with the same stamp. */
  function Transmissions(ts: seq<ProcessId>, data: Value, from: ProcessId, clock: int): seq<Transmission> {
    if ts == [] then []
    else Transmissions(ts[..|ts| - 1], data, from, clock) + [Transmission(ts[|ts| - 1], data, from, clock)]
  }

  /** One message per destination, the `k`-th for the `k`-th destination, all with the same payload and stamp. */
  lemma {:induction false} TransmissionsPerDestination(ts: seq<ProcessId>, data: Value, from: ProcessId, clock: int)
    ensures |Transmissions(ts, data, from, clock)| == |ts|
    ensures forall k :: 0 <= k < |ts| ==> Transmissions(ts, data, from, clock)[k] == Transmission(ts[k], data, from, clock)
    decreases |ts|
  {
    if ts != [] {
      var n := |ts| - 1;
      TransmissionsPerDestination(ts[..n], data, from, clock);
      assert forall k :: 0 <= k < n ==> ts[..n][k] == ts[k];
    }
  }

  /** The SENT event a send triggers locally, stamped with the sender's clock. */
  function SentEventOf(id: ProcessId, clock: int, data: Value): Event {
    Event(SentEvent, data, clock, Some(id), None)
  }

  /** The RECEIVED event the receive thread builds from `(src, clock, data)`. */
  function ReceivedEventOf(src: ProcessId, clock: int, data: Value): Event {
    Event(ReceivedEvent, data, clock, Some(src), None)
  }

  /**
   * The result of an event step: an event was handled; the queue was empty
   * (a non-blocking get, or a wait that timed out); or the queue was empty
   * and the get would wait without a deadline for the receive thread.
   */
  datatype EventStep = Handled | NoEvent | Blocked

  /**
   * How a label checkpoint ends: normally; by the crash fault, which exits
   * the process with `SystemExit(10)`; by the label timeout expiring;
   * suspended waiting for an event; or by a handler exception that is not
   * a `TypeError`, which propagates to the caller.
   */
  datatype LabelOutcome = Done | Crashed | Expired | Suspended | Aborted

  /** The time left before a label timeout, the timer having started at `now` if it was not running. */
  function TimeLeft(timer: Option<int>, timeout: int, now: int): int {
    timeout - (now - (if timer.None? then now else timer.value))
  }

  /** The event queue, the clock, the job queue with the histories, and the handler calls made. */
  datatype Engine = Engine(eventq: seq<Event>, clock: int, held: Held, calls: seq<Job>)

  datatype Checkpoint = Checkpoint(engine: Engine, out: LabelOutcome)

  /**
   * The second half of a label checkpoint: take at most one event (the
   * clock moves to `max(clock, timestamp) + 1` and the event is
   * dispatched), then run the job queue at `name`. An empty queue with a
   * blocking get and no deadline suspends the checkpoint before the job
   * queue.
   */
  function EventAndJobs(ps: seq<Pattern>, e: Engine, block: bool, timeleft: Option<int>,
                        matches: seq<Option<Bindings>>, name: string, call: Outcomes): (r: Checkpoint)
    requires |matches| == |ps| && Recorded(ps, e.held.histories)
    ensures r.out == Suspended <==> e.eventq == [] && block && timeleft.None?
    ensures r.out == Suspended ==> r.engine == e
    ensures e.eventq != [] ==> r.engine.eventq == e.eventq[1..] && r.engine.clock > e.clock
    ensures e.eventq == [] ==> r.engine.clock == e.clock && r.engine.held.histories == e.held.histories
    ensures e.calls <= r.engine.calls
    ensures r.engine.held.histories.Keys == e.held.histories.Keys
  {
    if e.eventq == [] && block && timeleft.None? then Checkpoint(e, Suspended)
    else
      var taken := e.eventq != [];
      var held := if taken then Dispatch(ps, matches, ToTuple(e.eventq[0]), e.held) else e.held;
      var s := ScanJobs(held.jobs, name, call);
      Checkpoint(Engine(if taken then e.eventq[1..] else [],
                        if taken then Tick(e.clock, e.eventq[0].timestamp) else e.clock,
                        Held(if s.completed then s.kept else held.jobs, held.histories),
                        e.calls + s.ran),
                 if s.completed then Done else Aborted)
  }

  /** The initial fault-rate table: every class at rate 0. */
  const NoFaults: map<string, int> := map["send" := 0, "receive" := 0, "crash" := 0]

  class DistProcess {
    const id: ProcessId
    /** The registered patterns (`_events`), in registration order. */
    const patterns: seq<Pattern>

    var running: bool
    var clock: nat
    var eventq: seq<Event>
    var jobq: seq<Job>
    var failures: map<string, int>
    var evtimeout: Value
    var dpName: Value
    /** The argument lists `setup` has been called with, in order. */
    var setupCalls: seq<seq<Value>>
    var timer: Option<int>
    var timerExpired: bool
    var timerRunning: bool
    var receivedQ: seq<Value>
    var histories: Histories
    /** The jobs whose handlers have been called, in call order. */
    var calls: seq<Job>
    /** The messages handed to the channel, in order. */
    var outbox: seq<Transmission>

    ghost predicate Valid()
      reads this
    {
      Recorded(patterns, histories)
    }

    function Cfg(): Config
      reads this
    {
      Config(failures, evtimeout, dpName, setupCalls)
    }

    function DispatchState(): Held
      reads this
    {
      Held(jobq, histories)
    }

    /** The part of the state a label checkpoint's event step and job queue touch. */
    function Snapshot(): Engine
      reads this
    {
      Engine(eventq, clock, DispatchState(), calls)
    }

    /** A process just created: nothing queued, clock 0, no faults, not running. */
    constructor (id: ProcessId, patterns: seq<Pattern>, histories: Histories, name: Value)
      requires Recorded(patterns, histories)
      ensures Valid()
      ensures this.id == id && this.patterns == patterns && this.histories == histories
      ensures !running && clock == 0 && eventq == [] && jobq == [] && failures == NoFaults
      ensures evtimeout == VNone && dpName == name && setupCalls == []
      ensures timer == None && !timerExpired && !timerRunning
      ensures receivedQ == [] && calls == [] && outbox == []
    {
      this.id := id;
      this.patterns := patterns;
      this.histories := histories;
      running := false;
      clock := 0;
      eventq := [];
      jobq := [];
      failures := NoFaults;
      evtimeout := VNone;
      dpName := name;
      setupCalls := [];
      timer := None;
      timerExpired := false;
      timerRunning := false;
      receivedQ := [];
      calls := [];
      outbox := [];
    }

    // ---- Attribute setters ----

    method SetSendFailRate(rate: int)
      modifies this`failures
      ensures failures == old(failures)["send" := rate]
    {
      failures := failures["send" := rate];
    }

    method SetReceiveFailRate(rate: int)
      modifies this`failures
      ensures failures == old(failures)["receive" := rate]
    {
      failures := failures["receive" := rate];
    }

    method SetCrashRate(rate: int)
      modifies this`failures
      ensures failures == old(failures)["crash" := rate]
    {
      failures := failures["crash" := rate];
    }

    method SetEventTimeout(time: Value)
      modifies this`evtimeout
      ensures evtimeout == time
    {
      evtimeout := time;
    }

    method SetName(name: Value)
      modifies this`dpName
      ensures dpName == name
    {
      dpName := name;
    }

    /** The user-defined `setup`, whose effect is recorded as the call itself. */
    method Setup(args: seq<Value>)
      modifies this`setupCalls
      ensures setupCalls == old(setupCalls) + [args]
    {
      setupCalls := setupCalls + [args];
    }

    /** One `(inst, args)` handshake command: `setup(*args)` or `set_<inst>(*args)`. */
    method ApplyCommand(inst: string, args: seq<Value>) returns (ok: bool)
      modifies this`failures, this`evtimeout, this`dpName, this`setupCalls
      ensures var r := Apply(old(Cfg()), inst, args);
              ok == r.Some? && Cfg() == (if ok then r.value else old(Cfg()))
    {
      ok := true;
      if inst == "setup" {
        Setup(args);
      } else if inst == "send_fail_rate" && |args| == 1 && args[0].VInt? {
        SetSendFailRate(args[0].i);
      } else if inst == "receive_fail_rate" && |args| == 1 && args[0].VInt? {
        SetReceiveFailRate(args[0].i);
      } else if inst == "crash_rate" && |args| == 1 && args[0].VInt? {
        SetCrashRate(args[0].i);
      } else if inst == "event_timeout" && |args| == 1 {
        SetEventTimeout(args[0]);
      } else if inst == "name" && |args| == 1 {
        SetName(args[0]);
      } else {
        ok := false;
      }
    }

    /**
     * The handshake loop: read commands until "start", which sets the
     * running flag and ends the loop.
     */
    method WaitForGo(cmds: seq<Command>) returns (o: Outcome)
      modifies this`running, this`failures, this`evtimeout, this`dpName, this`setupCalls
      ensures o == Run(old(Cfg()), cmds, 0)
      ensures Cfg() == o.cfg
      ensures running == (o.Started? || old(running))
    {
      var i := 0;
      while i < |cmds|
        invariant 0 <= i <= |cmds|
        invariant Run(Cfg(), cmds, i) == Run(old(Cfg()), cmds, 0)
        invariant running == old(running)
        decreases |cmds| - i
      {
        var act := cmds[i];
        i := i + 1;
        match act
        case Start =>
          running := true;
          return Started(Cfg(), i);
        case Cmd(inst, args) =>
          var ok := ApplyCommand(inst, args);
          if !ok {
            return Rejected(Cfg(), i);
          }
      }
      return Exhausted(Cfg());
    }

    // ---- Clock and timers ----

    method LogicalClock() returns (c: nat)
      ensures c == clock
    {
      c := clock;
    }

    method IncrLogicalClock()
      modifies this`clock
      ensures clock == old(clock) + 1
    {
      clock := clock + 1;
    }

    /** Starts the usage accounting; a no-op when it is already running. */
    method StartTimers()
      modifies this`timerRunning
      ensures timerRunning
    {
      if !timerRunning {
        timerRunning := true;
      }
    }

    /** Stops the usage accounting; a no-op when it is already stopped. */
    method StopTimers()
      modifies this`timerRunning
      ensures !timerRunning
    {
      if timerRunning {
        timerRunning := false;
      }
    }

    method TimerStart(now: int)
      modifies this`timer, this`timerExpired
      ensures timer == Some(now) && !timerExpired
    {
      timer := Some(now);
      timerExpired := false;
    }

    method TimerEnd()
      modifies this`timer
      ensures timer == None
    {
      timer := None;
    }

    // ---- Sending and receiving ----

    /**
     * Sends `data` to every destination. The clock advances once per call;
     * a send fault returns `false` at once. Otherwise the result says
     * whether every channel send succeeded, and a SENT event stamped with
     * the new clock is triggered.
     */
    method Send(data: Value, to: Destination, draw: int, results: seq<bool>,
                matches: seq<Option<Bindings>>) returns (r: bool)
      requires Valid() && 0 <= draw <= 100
      requires |results| == |Targets(to)| && |matches| == |patterns|
      modifies this`clock, this`outbox, this`jobq, this`histories
      ensures Valid()
      ensures clock == old(clock) + 1
      ensures Fails(failures, "send", draw) ==>
                !r && outbox == old(outbox) && DispatchState() == old(DispatchState())
      ensures !Fails(failures, "send", draw) ==>
                && (r <==> forall k :: 0 <= k < |results| ==> results[k])
                && outbox == old(outbox) + Transmissions(Targets(to), data, id, clock)
                && DispatchState() ==
                     Dispatch(patterns, matches, ToTuple(SentEventOf(id, clock, data)), old(DispatchState()))
    {
      IncrLogicalClock();
      if Fails(failures, "send", draw) {
        return false;
      }
      r := Transmit(data, to, results);
      TriggerEvent(SentEventOf(id, clock, data), matches);
    }

    /**
     * Hands `(data, id, clock)` to the channel for every destination, in
     * order; the result is true iff every channel send returned true.
     */
    method Transmit(data: Value, to: Destination, results: seq<bool>) returns (r: bool)
      requires |results| == |Targets(to)|
      modifies this`outbox
      ensures r <==> forall k :: 0 <= k < |results| ==> results[k]
      ensures outbox == old(outbox) + Transmissions(Targets(to), data, id, clock)
    {
      match to
      case Many(ps) =>
        r := true;
        var k := 0;
        while k < |ps|
          invariant 0 <= k <= |ps|
          invariant outbox == old(outbox) + Transmissions(ps[..k], data, id, clock)
          invariant r <==> forall j :: 0 <= j < k ==> results[j]
        {
          outbox := outbox + [Transmission(ps[k], data, id, clock)];
          if !results[k] {
            r := false;
          }
          assert ps[..k + 1][..k] == ps[..k];
          k := k + 1;
        }
        assert ps[..k] == ps;
      case Single(p) =>
        assert [p][..0] == [];
        outbox := outbox + [Transmission(p, data, id, clock)];
        r := results[0];
    }

    /**
     * One message delivered by the channel: unless the receive fault
     * fires, its RECEIVED event joins the end of the event queue.
     */
    method EnqueueReceived(src: ProcessId, stamp: int, data: Value, draw: int)
      requires 0 <= draw <= 100
      modifies this`eventq
      ensures eventq == old(eventq) +
                (if Fails(failures, "receive", draw) then [] else [ReceivedEventOf(src, stamp, data)])
    {
      if !Fails(failures, "receive", draw) {
        eventq := eventq + [ReceivedEventOf(src, stamp, data)];
      }
    }

    /** Whether `mess` has been received; its first occurrence is consumed. */
    method HasReceived(mess: Value) returns (r: bool)
      modifies this`receivedQ
      ensures r == (mess in old(receivedQ))
      ensures receivedQ == RemoveFirst(old(receivedQ), mess)
    {
      if mess in receivedQ {
        receivedQ := RemoveFirst(receivedQ, mess);
        r := true;
      } else {
        RemoveAbsent(receivedQ, mess);
        r := false;
      }
    }

    // ---- Events, dispatch and jobs ----

    /** Appends one job per handler, in handler order, each carrying `b`. */
    method EnqueueHandlers(hs: seq<Handler>, b: Bindings)
      modifies this`jobq
      ensures jobq == old(jobq) + HandlerJobs(hs, b)
    {
      var k := 0;
      while k < |hs|
        invariant 0 <= k <= |hs|
        invariant jobq == old(jobq) + HandlerJobs(hs[..k], b)
      {
        assert hs[..k + 1][..k] == hs[..k];
        jobq := jobq + [Job(hs[k], b)];
        k := k + 1;
      }
      assert hs[..k] == hs;
    }

    /** One pattern's part of a trigger: on a match, record history, then queue its handlers. */
    method TriggerPattern(p: Pattern, m: Option<Bindings>, t: EventTuple)
      requires !p.record.NoHistory? ==> p.name in histories
      modifies this`jobq, this`histories
      ensures DispatchState() == Step(p, m, t, old(DispatchState()))
    {
      if m.Some? {
        if p.record.AppendRaw? {
          histories := histories[p.name := histories[p.name] + [t]];
        } else if p.record.Custom? {
          histories := histories[p.name := p.record.update(histories[p.name], t)];
        }
        EnqueueHandlers(p.handlers, m.value);
      }
    }

    /** Matches `e` against every pattern, in registration order, bypassing the event queue. */
    method TriggerEvent(e: Event, matches: seq<Option<Bindings>>)
      requires Valid() && |matches| == |patterns|
      modifies this`jobq, this`histories
      ensures Valid()
      ensures DispatchState() == Dispatch(patterns, matches, ToTuple(e), old(DispatchState()))
    {
      var t := ToTuple(e);
      ghost var st0 := DispatchState();
      var i := 0;
      while i < |patterns|
        invariant 0 <= i <= |patterns|
        invariant histories.Keys == st0.histories.Keys && Valid()
        invariant DispatchState() == Dispatch(patterns[..i], matches[..i], t, st0)
      {
        TriggerPattern(patterns[i], matches[i], t);
        assert patterns[..i + 1][..i] == patterns[..i] && matches[..i + 1][..i] == matches[..i];
        i := i + 1;
      }
      assert patterns[..i] == patterns && matches[..i] == matches;
    }

    /**
     * Takes at most one event from the queue. A taken event sets the clock
     * to `max(clock, timestamp) + 1` and is then dispatched; an empty queue
     * changes nothing. A negative timeout counts as zero.
     */
    method ProcessEvent(block: bool, timeout: Option<int>, matches: seq<Option<Bindings>>)
      returns (step: EventStep)
      requires Valid() && |matches| == |patterns|
      modifies this`eventq, this`clock, this`jobq, this`histories
      ensures Valid()
      ensures old(eventq) == [] ==>
                && step == (if block && timeout.None? then Blocked else NoEvent)
                && eventq == [] && clock == old(clock) && DispatchState() == old(DispatchState())
      ensures old(eventq) != [] ==>
                && step == Handled
                && eventq == old(eventq)[1..]
                && clock == Tick(old(clock), old(eventq)[0].timestamp)
                && DispatchState() ==
                     Dispatch(patterns, matches, ToTuple(old(eventq)[0]), old(DispatchState()))
    {
      var wait := timeout;
      if wait.Some? && wait.value < 0 {
        wait := Some(0);
      }
      if eventq == [] {
        return if block && wait.None? then Blocked else NoEvent;
      }
      var e := eventq[0];
      eventq := eventq[1..];
      clock := Tick(clock, e.timestamp);
      TriggerEvent(e, matches);
      step := Handled;
    }

    /**
     * Runs, in queue order, every job whose handler admits `name`; the
     * others are carried, in order, into the new queue. A handler raising
     * anything but `TypeError` stops the pass and leaves the queue as it was.
     */
    method ProcessJobqueue(name: string, call: Outcomes) returns (completed: bool)
      modifies this`jobq, this`calls
      ensures var s := ScanJobs(old(jobq), name, call);
              && completed == s.completed
              && calls == old(calls) + s.ran
              && jobq == (if s.completed then s.kept else old(jobq))
    {
      var q := jobq;
      var newq := [];
      var n := 0;
      var i := 0;
      while i < |q|
        invariant 0 <= i <= |q| && jobq == q
        invariant var s := ScanJobs(q[..i], name, call);
                  s.completed && newq == s.kept && calls == old(calls) + s.ran && n == |s.ran|
      {
        var j := q[i];
        assert q[..i + 1][..i] == q[..i];
        if Admissible(j.handler, name) {
          calls := calls + [j];
          var outcome := call(n, j);
          n := n + 1;
          if outcome == RaisedOther {
            AbortSticks(q, name, call, i + 1);
            return false;
          }
        } else {
          newq := newq + [j];
        }
        i := i + 1;
      }
      assert q[..i] == q;
      jobq := newq;
      return true;
    }

    /**
     * The label timeout (a positive remaining time lets the checkpoint go
     * on): the timer starts at `now` if it is not running; once no time is
     * left, the timer is cleared and the expired flag is set.
     */
    method CheckTimeout(timeout: int, now: int) returns (left: int)
      modifies this`timer, this`timerExpired
      ensures left == TimeLeft(old(timer), timeout, now)
      ensures left <= 0 ==> timer == None && timerExpired
      ensures left > 0 ==> && timer == Some(if old(timer).None? then now else old(timer).value)
                           && timerExpired == (old(timer).Some? && old(timerExpired))
    {
      if timer.None? {
        TimerStart(now);
      }
      left := timeout - (now - timer.value);
      if left <= 0 {
        TimerEnd();
        timerExpired := true;
      }
    }

    /**
     * The label checkpoint: usage timers for "start" and "end", the crash
     * fault, the label timeout, then one event step and the job queue at
     * this label.
     */
    method Label(name: string, block: bool, timeout: Option<int>, now: int, crashDraw: int,
                 matches: seq<Option<Bindings>>, call: Outcomes) returns (out: LabelOutcome)
      requires Valid() && 0 <= crashDraw <= 100 && |matches| == |patterns|
      modifies this`timerRunning, this`timer, this`timerExpired, this`eventq, this`clock,
               this`jobq, this`histories, this`calls
      ensures Valid()
      ensures timerRunning == (if name == "start" then true else if name == "end" then false else old(timerRunning))
      ensures Fails(failures, "crash", crashDraw) ==>
                && out == Crashed && Snapshot() == old(Snapshot())
                && timer == old(timer) && timerExpired == old(timerExpired)
      ensures !Fails(failures, "crash", crashDraw) && timeout.None? ==>
                && timer == old(timer) && timerExpired == old(timerExpired)
                && Checkpoint(Snapshot(), out) ==
                     EventAndJobs(patterns, old(Snapshot()), block, None, matches, name, call)
      ensures !Fails(failures, "crash", crashDraw) && timeout.Some? ==>
                var left := TimeLeft(old(timer), timeout.value, now);
                && (left <= 0 ==>
                      && out == Expired && Snapshot() == old(Snapshot())
                      && timer == None && timerExpired)
                && (left > 0 ==>
                      && timer == Some(if old(timer).None? then now else old(timer).value)
                      && timerExpired == (old(timer).Some? && old(timerExpired))
                      && Checkpoint(Snapshot(), out) ==
                           EventAndJobs(patterns, old(Snapshot()), block, Some(left), matches, name, call))
    {
      if name == "start" {
        StartTimers();
      } else if name == "end" {
        StopTimers();
      }
      if Fails(failures, "crash", crashDraw) {
        return Crashed;
      }
      var timeleft: Option<int> := None;
      if timeout.Some? {
        var left := CheckTimeout(timeout.value, now);
        if left <= 0 {
          return Expired;
        }
        timeleft := Some(left);
      }
      out := EventThenJobs(name, block, timeleft, matches, call);
    }

    /** The part of a label checkpoint after the timeout: one event step, then the job queue. */
    method EventThenJobs(name: string, block: bool, timeleft: Option<int>,
                         matches: seq<Option<Bindings>>, call: Outcomes) returns (out: LabelOutcome)
      requires Valid() && |matches| == |patterns|
      modifies this`eventq, this`clock, this`jobq, this`histories, this`calls
      ensures Valid()
      ensures Checkpoint(Snapshot(), out) ==
                EventAndJobs(patterns, old(Snapshot()), block, timeleft, matches, name, call)
    {
      var step := ProcessEvent(block, timeleft, matches);
      if step == Blocked {
        return Suspended;
      }
      var completed := ProcessJobqueue(name, call);
      out := if completed then Done else Aborted;
    }

    // ---- History registry ----

    /** Resets to empty every history container whose name starts with `prefix`. */
    method Purge(prefix: string)
      requires Valid()
      modifies this`histories
      ensures Valid() && histories.Keys == old(histories).Keys
      ensures forall k :: k in histories ==> histories[k] == if prefix <= k then [] else old(histories)[k]
    {
      var names := histories.Keys;
      ghost var h0 := histories;
      while names != {}
        invariant names <= h0.Keys && histories.Keys == h0.Keys
        invariant forall k :: k in histories ==>
                    histories[k] == if k !in names && prefix <= k then [] else h0[k]
        decreases names
      {
        var k :| k in names;
        if prefix <= k {
          histories := histories[k := []];
        }
        names := names - {k};
      }
    }

    method PurgeReceived()
      requires Valid()
      modifies this`histories
      ensures Valid() && histories.Keys == old(histories).Keys
      ensures forall k :: k in histories ==>
                histories[k] == if "_receive_messages_" <= k then [] else old(histories)[k]
    {
      Purge("_receive_messages_");
    }

    method PurgeSent()
      requires Valid()
      modifies this`histories
      ensures Valid() && histories.Keys == old(histories).Keys
      ensures forall k :: k in histories ==>
                histories[k] == if "_sent_messages_" <= k then [] else old(histories)[k]
    {
      Purge("_sent_messages_");
    }
  }
}
