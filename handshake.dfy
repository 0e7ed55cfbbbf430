/**
 * The command protocol of the start-up handshake: before "start", a
 * spawned process reads `("setup", args)` commands, which call `setup`,
 * and `(inst, args)` commands, which call the setter `set_<inst>`.
 */
module Handshake {
  import opened Wrappers
  import opened Events

  /** A command read from the set-up pipe: the token "start" or an `(inst, args)` pair. */
  datatype Command = Start | Cmd(inst: string, args: seq<Value>)

  /**
   * The attributes the handshake configures: the fault-rate table,
   * `_evtimeout`, `_dp_name`, and the argument lists `setup` was called with.
   */
  datatype Config = Config(failures: map<string, int>, evtimeout: Value, name: Value,
                           setupCalls: seq<seq<Value>>)

  /** The key of the fault-rate table that the setter `set_<inst>` writes, if it is a rate setter. */
  function RateKey(inst: string): Option<string> {
    if inst == "send_fail_rate" then Some("send")
    else if inst == "receive_fail_rate" then Some("receive")
    else if inst == "crash_rate" then Some("crash")
    else None
  }

  /**
   * One `(inst, args)` command. `None` stands for the exception raised when
   * there is no setter `set_<inst>` or the arguments do not fit its single
   * parameter (a rate must be an integer here).
   */
  function Apply(c: Config, inst: string, args: seq<Value>): Option<Config> {
    if inst == "setup" then Some(c.(setupCalls := c.setupCalls + [args]))
    else if RateKey(inst).Some? then
      if |args| == 1 && args[0].VInt? then Some(c.(failures := c.failures[RateKey(inst).value := args[0].i]))
      else None
    else if inst == "event_timeout" then
      if |args| == 1 then Some(c.(evtimeout := args[0])) else None
    else if inst == "name" then
      if |args| == 1 then Some(c.(name := args[0])) else None
    else None
  }

  /**
   * How the loop ends: "start" read (`next` is the index of the first
   * command left unread), a command that raised (read at `next - 1`), or no
   * more commands, where the process is still waiting for "start".
   */
  datatype Outcome =
    | Started(cfg: Config, next: nat)
    | Rejected(cfg: Config, next: nat)
    | Exhausted(cfg: Config)

  /** The loop, reading `cmds` from index `i` on. */
  function Run(c: Config, cmds: seq<Command>, i: nat): Outcome
    requires i <= |cmds|
    decreases |cmds| - i
  {
    if i == |cmds| then Exhausted(c)
    else
      match cmds[i]
      case Start => Started(c, i + 1)
      case Cmd(inst, args) =>
        match Apply(c, inst, args)
        case None => Rejected(c, i + 1)
        case Some(c') => Run(c', cmds, i + 1)
  }

  /** How many commands have been read when the loop ends. */
  function Consumed(o: Outcome, n: nat): nat {
    if o.Exhausted? then n else o.next
  }

  /** Reference definition: the argument lists of the `setup` commands, in order. */
  function SetupArgs(cs: seq<Command>): seq<seq<Value>> {
    if cs == [] then []
    else (if cs[0].Cmd? && cs[0].inst == "setup" then [cs[0].args] else []) + SetupArgs(cs[1..])
  }

  /** Whether command `c` is `(inst, args)` for the given `inst`. */
  predicate Names(c: Command, inst: string) {
    c.Cmd? && c.inst == inst
  }

  /**
   * The loop stops at the first "start" and only there: every command it
   * read before the last one was an `(inst, args)` command, and the last
   * one is "start" exactly when the process is started.
   */
  lemma {:induction false} RunShape(c: Config, cmds: seq<Command>, i: nat)
    requires i <= |cmds|
    ensures var o := Run(c, cmds, i);
            && i <= Consumed(o, |cmds|) <= |cmds|
            && (!o.Exhausted? ==> i < o.next && (cmds[o.next - 1].Start? <==> o.Started?))
            && (forall k :: i <= k < Consumed(o, |cmds|) - (if o.Exhausted? then 0 else 1) ==> cmds[k].Cmd?)
    decreases |cmds| - i
  {
    if i < |cmds| && cmds[i].Cmd? && Apply(c, cmds[i].inst, cmds[i].args).Some? {
      RunShape(Apply(c, cmds[i].inst, cmds[i].args).value, cmds, i + 1);
    }
  }

  /** Corollary of `RunShape`: the loop reads from `i` up to where it stops, and never past the end. */
  lemma {:induction false} ConsumedBounds(c: Config, cmds: seq<Command>, i: nat)
    requires i <= |cmds|
    ensures var o := Run(c, cmds, i);
            i <= Consumed(o, |cmds|) <= |cmds| && (!o.Exhausted? ==> i < o.next)
  {
    RunShape(c, cmds, i);
  }

  /** Commands after "start", or after a command that raised, are never read. */
  lemma {:induction false} LaterCommandsUnread(c: Config, cmds: seq<Command>, more: seq<Command>, i: nat)
    requires i <= |cmds|
    requires !Run(c, cmds, i).Exhausted?
    ensures Run(c, cmds + more, i) == Run(c, cmds, i)
    decreases |cmds| - i
  {
    assert (cmds + more)[i] == cmds[i];
    if cmds[i].Cmd? && Apply(c, cmds[i].inst, cmds[i].args).Some? {
      LaterCommandsUnread(Apply(c, cmds[i].inst, cmds[i].args).value, cmds, more, i + 1);
    }
  }

  /** One command adds its arguments to the `setup` calls exactly when it is a `setup` command. */
  lemma {:induction false} SetupCallsStep(c: Config, inst: string, args: seq<Value>)
    requires Apply(c, inst, args).Some?
    ensures Apply(c, inst, args).value.setupCalls ==
              c.setupCalls + (if inst == "setup" then [args] else [])
  {
  }

  lemma {:induction false} SetupArgsFront(cmds: seq<Command>, i: nat, n: nat)
    requires i < n <= |cmds|
    ensures SetupArgs(cmds[i..n]) ==
              (if cmds[i].Cmd? && cmds[i].inst == "setup" then [cmds[i].args] else []) + SetupArgs(cmds[i + 1..n])
  {
    assert cmds[i..n][0] == cmds[i];
    assert cmds[i..n][1..] == cmds[i + 1..n];
  }

  /** The command the loop stops at, "start" or one that raised, makes no `setup` call. */
  lemma {:induction false} SetupAtStop(c: Config, cmds: seq<Command>, i: nat)
    requires i < |cmds| && (cmds[i].Start? || Apply(c, cmds[i].inst, cmds[i].args).None?)
    ensures var o := Run(c, cmds, i);
            i < Consumed(o, |cmds|) <= |cmds| &&
            o.cfg.setupCalls == c.setupCalls + SetupArgs(cmds[i..Consumed(o, |cmds|)])
  {
    var o := Run(c, cmds, i);
    assert o.cfg == c && Consumed(o, |cmds|) == i + 1;
    SetupArgsFront(cmds, i, i + 1);
    assert cmds[i].Cmd? ==> cmds[i].inst != "setup";
    assert cmds[i + 1..i + 1] == [];
  }

  /** `setup` is called once per `("setup", args)` command read, with those arguments, in order. */
  lemma {:induction false} SetupOncePerCommand(c: Config, cmds: seq<Command>, i: nat)
    requires i <= |cmds|
    ensures var o := Run(c, cmds, i);
            i <= Consumed(o, |cmds|) <= |cmds| &&
            o.cfg.setupCalls == c.setupCalls + SetupArgs(cmds[i..Consumed(o, |cmds|)])
    decreases |cmds| - i
  {
    var o := Run(c, cmds, i);
    ConsumedBounds(c, cmds, i);
    var n := Consumed(o, |cmds|);
    if i == |cmds| {
      assert o == Exhausted(c) && cmds[i..n] == [];
    } else if cmds[i].Start? || Apply(c, cmds[i].inst, cmds[i].args).None? {
      SetupAtStop(c, cmds, i);
    } else {
      var c' := Apply(c, cmds[i].inst, cmds[i].args).value;
      assert o.cfg.setupCalls == c.setupCalls + SetupArgs(cmds[i..n]) by {
        assert o == Run(c', cmds, i + 1);
        SetupArgsFront(cmds, i, n);
        SetupCallsStep(c, cmds[i].inst, cmds[i].args);
        SetupOncePerCommand(c', cmds, i + 1);
      }
    }
  }

  /** One command changes only the attribute its setter names. */
  lemma {:induction false} ApplyChangesOnlyItsOwn(c: Config, inst: string, args: seq<Value>, key: string)
    requires Apply(c, inst, args).Some?
    ensures var c' := Apply(c, inst, args).value;
            && c'.failures.Keys <= c.failures.Keys + {"send", "receive", "crash"}
            && (RateKey(inst) != Some(key) ==>
                  (key in c'.failures <==> key in c.failures) &&
                  (key in c.failures ==> c'.failures[key] == c.failures[key]))
            && (inst != "event_timeout" ==> c'.evtimeout == c.evtimeout)
            && (inst != "name" ==> c'.name == c.name)
  {
  }

  /** The only keys the handshake can add to the fault-rate table are the three fault classes. */
  lemma {:induction false} RateKeysBounded(c: Config, cmds: seq<Command>, i: nat)
    requires i <= |cmds|
    ensures Run(c, cmds, i).cfg.failures.Keys <= c.failures.Keys + {"send", "receive", "crash"}
    decreases |cmds| - i
  {
    if i < |cmds| && cmds[i].Cmd? && Apply(c, cmds[i].inst, cmds[i].args).Some? {
      ApplyChangesOnlyItsOwn(c, cmds[i].inst, cmds[i].args, "");
      RateKeysBounded(Apply(c, cmds[i].inst, cmds[i].args).value, cmds, i + 1);
    }
  }

  /** A fault class that no command read sets keeps its rate, or stays absent. */
  lemma {:induction false} RateKeptUnlessSet(c: Config, cmds: seq<Command>, i: nat, key: string)
    requires i <= |cmds|
    ensures var o := Run(c, cmds, i);
            (forall k :: i <= k < Consumed(o, |cmds|) && k < |cmds| ==>
               !(cmds[k].Cmd? && RateKey(cmds[k].inst) == Some(key))) ==>
              && (key in o.cfg.failures <==> key in c.failures)
              && (key in c.failures ==> o.cfg.failures[key] == c.failures[key])
    decreases |cmds| - i
  {
    if i < |cmds| && cmds[i].Cmd? && Apply(c, cmds[i].inst, cmds[i].args).Some? {
      ApplyChangesOnlyItsOwn(c, cmds[i].inst, cmds[i].args, key);
      var c' := Apply(c, cmds[i].inst, cmds[i].args).value;
      assert Run(c, cmds, i) == Run(c', cmds, i + 1);
      ConsumedBounds(c', cmds, i + 1);
      RateKeptUnlessSet(c', cmds, i + 1, key);
    }
  }

  /** When no command read names `event_timeout`, the timeout keeps its value. */
  lemma {:induction false} TimeoutKeptUnlessSet(c: Config, cmds: seq<Command>, i: nat)
    requires i <= |cmds|
    ensures var o := Run(c, cmds, i);
            (forall k :: i <= k < Consumed(o, |cmds|) && k < |cmds| ==> !Names(cmds[k], "event_timeout")) ==>
              o.cfg.evtimeout == c.evtimeout
    decreases |cmds| - i
  {
    if i < |cmds| && cmds[i].Cmd? && Apply(c, cmds[i].inst, cmds[i].args).Some? {
      ApplyChangesOnlyItsOwn(c, cmds[i].inst, cmds[i].args, "");
      var c' := Apply(c, cmds[i].inst, cmds[i].args).value;
      assert Run(c, cmds, i) == Run(c', cmds, i + 1);
      ConsumedBounds(c', cmds, i + 1);
      TimeoutKeptUnlessSet(c', cmds, i + 1);
    }
  }

  /** When no command read names `name`, the process name keeps its value. */
  lemma {:induction false} NameKeptUnlessSet(c: Config, cmds: seq<Command>, i: nat)
    requires i <= |cmds|
    ensures var o := Run(c, cmds, i);
            (forall k :: i <= k < Consumed(o, |cmds|) && k < |cmds| ==> !Names(cmds[k], "name")) ==>
              o.cfg.name == c.name
    decreases |cmds| - i
  {
    if i < |cmds| && cmds[i].Cmd? && Apply(c, cmds[i].inst, cmds[i].args).Some? {
      ApplyChangesOnlyItsOwn(c, cmds[i].inst, cmds[i].args, "");
      var c' := Apply(c, cmds[i].inst, cmds[i].args).value;
      assert Run(c, cmds, i) == Run(c', cmds, i + 1);
      ConsumedBounds(c', cmds, i + 1);
      NameKeptUnlessSet(c', cmds, i + 1);
    }
  }

  /**
   * What a parent's `spawn` sends: `("setup", args)` then "start". `setup`
   * runs once with `args`, nothing else changes, and both commands are read.
   */
  lemma {:induction false} SpawnSequence(c: Config, args: seq<Value>)
    ensures Run(c, [Cmd("setup", args), Start], 0) ==
              Started(c.(setupCalls := c.setupCalls + [args]), 2)
  {
  }
}
