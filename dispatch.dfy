/**
 * The pattern-matching engine: for one triggered event, every registered
 * pattern whose match succeeds records history and enqueues one job per
 * handler. Match results are given, one per pattern, in registration order.
 */
module PatternDispatch {
  import opened Wrappers
  import opened Events

  /** The registry of history containers, addressed by pattern name. */
  type Histories = map<string, seq<EventTuple>>

  /** The part of a process that dispatch updates: the job queue and the history containers. */
  datatype Held = Held(jobs: seq<Job>, histories: Histories)

  /** One job per handler, in handler order, all carrying the same bindings. */
  function HandlerJobs(hs: seq<Handler>, b: Bindings): (js: seq<Job>)
    ensures |js| == |hs|
    ensures forall i :: 0 <= i < |hs| ==> js[i] == Job(hs[i], b)
  {
    if hs == [] then [] else HandlerJobs(hs[..|hs| - 1], b) + [Job(hs[|hs| - 1], b)]
  }

  /** Every pattern that records history has a container to record into. */
  predicate Recorded(ps: seq<Pattern>, h: Histories) {
    forall i :: 0 <= i < |ps| && !ps[i].record.NoHistory? ==> ps[i].name in h
  }

  /** Pattern names are distinct, so no two patterns share a container. */
  predicate DistinctNames(ps: seq<Pattern>) {
    forall i, j :: 0 <= i < j < |ps| ==> ps[i].name != ps[j].name
  }

  /** A history container after a match of its pattern. */
  function Updated(policy: HistoryPolicy, h: seq<EventTuple>, t: EventTuple): seq<EventTuple> {
    match policy
    case NoHistory => h
    case AppendRaw => h + [t]
    case Custom(f) => f(h, t)
  }

  /** The effect of one pattern with match result `m` on the event tuple `t`. */
  function Step(p: Pattern, m: Option<Bindings>, t: EventTuple, st: Held): (r: Held)
    requires !p.record.NoHistory? ==> p.name in st.histories
    ensures r.histories.Keys == st.histories.Keys
  {
    if m.None? then st
    else
      var h := if p.record.NoHistory? then st.histories
               else st.histories[p.name := Updated(p.record, st.histories[p.name], t)];
      Held(st.jobs + HandlerJobs(p.handlers, m.value), h)
  }

  /** The patterns visited in registration order; `ms[i]` is the result of matching `ps[i]`. */
  function Dispatch(ps: seq<Pattern>, ms: seq<Option<Bindings>>, t: EventTuple, st: Held): (r: Held)
    requires |ms| == |ps| && Recorded(ps, st.histories)
    ensures r.histories.Keys == st.histories.Keys
    decreases |ps|
  {
    if ps == [] then st
    else
      var n := |ps| - 1;
      assert forall i :: 0 <= i < n ==> ps[..n][i] == ps[i];
      Step(ps[n], ms[n], t, Dispatch(ps[..n], ms[..n], t, st))
  }

  /** Reference definition: the jobs of the matching patterns, pattern by pattern. */
  function Added(ps: seq<Pattern>, ms: seq<Option<Bindings>>): seq<Job>
    requires |ms| == |ps|
  {
    if ps == [] then [] else Contribution(ps[0], ms[0]) + Added(ps[1..], ms[1..])
  }

  /** The jobs one pattern adds: one per handler if it matched, none otherwise. */
  function Contribution(p: Pattern, m: Option<Bindings>): seq<Job> {
    if m.Some? then HandlerJobs(p.handlers, m.value) else []
  }

  lemma {:induction false} AddedAppend(ps: seq<Pattern>, ms: seq<Option<Bindings>>,
                                       p: Pattern, m: Option<Bindings>)
    requires |ms| == |ps|
    ensures Added(ps + [p], ms + [m]) == Added(ps, ms) + Contribution(p, m)
    decreases |ps|
  {
    if ps == [] {
      assert ps + [p] == [p] && ms + [m] == [m];
      assert Added([p], [m]) == Contribution(p, m) + Added([], []);
    } else {
      var ps', ms' := ps + [p], ms + [m];
      assert ps'[0] == ps[0] && ms'[0] == ms[0];
      assert ps'[1..] == ps[1..] + [p] && ms'[1..] == ms[1..] + [m];
      calc {
        Added(ps', ms');
        Contribution(ps[0], ms[0]) + Added(ps[1..] + [p], ms[1..] + [m]);
        { AddedAppend(ps[1..], ms[1..], p, m); }
        Contribution(ps[0], ms[0]) + (Added(ps[1..], ms[1..]) + Contribution(p, m));
        (Contribution(ps[0], ms[0]) + Added(ps[1..], ms[1..])) + Contribution(p, m);
        Added(ps, ms) + Contribution(p, m);
      }
    }
  }

  /**
   * Jobs already queued stay as they are, at the front; after them come,
   * in pattern order, one job per handler of every matching pattern, each
   * carrying that match's bindings. Non-matching patterns add nothing.
   */
  lemma {:induction false} DispatchJobs(ps: seq<Pattern>, ms: seq<Option<Bindings>>, t: EventTuple, st: Held)
    requires |ms| == |ps| && Recorded(ps, st.histories)
    ensures Dispatch(ps, ms, t, st).jobs == st.jobs + Added(ps, ms)
    decreases |ps|
  {
    if ps != [] {
      var n := |ps| - 1;
      var ps', ms' := ps[..n], ms[..n];
      assert forall i :: 0 <= i < n ==> ps'[i] == ps[i];
      var extra := Contribution(ps[n], ms[n]);
      var mid := Dispatch(ps', ms', t, st);
      assert Dispatch(ps, ms, t, st) == Step(ps[n], ms[n], t, mid);
      assert ps == ps' + [ps[n]] && ms == ms' + [ms[n]];
      calc {
        Dispatch(ps, ms, t, st).jobs;
        mid.jobs + extra;
        { DispatchJobs(ps', ms', t, st); }
        (st.jobs + Added(ps', ms')) + extra;
        st.jobs + (Added(ps', ms') + extra);
        { AddedAppend(ps', ms', ps[n], ms[n]); }
        st.jobs + Added(ps, ms);
      }
    }
  }

  /** An event that no pattern matches changes neither the job queue nor any history. */
  lemma {:induction false} NoMatchNoChange(ps: seq<Pattern>, ms: seq<Option<Bindings>>, t: EventTuple, st: Held)
    requires |ms| == |ps| && Recorded(ps, st.histories)
    requires forall i :: 0 <= i < |ms| ==> ms[i].None?
    ensures Dispatch(ps, ms, t, st) == st
    decreases |ps|
  {
    if ps != [] {
      var n := |ps| - 1;
      assert forall i :: 0 <= i < n ==> ps[..n][i] == ps[i];
      NoMatchNoChange(ps[..n], ms[..n], t, st);
    }
  }

  /** A container that no pattern is named after is untouched. */
  lemma {:induction false} DispatchLeavesOthers(ps: seq<Pattern>, ms: seq<Option<Bindings>>, t: EventTuple,
                                                st: Held, k: string)
    requires |ms| == |ps| && Recorded(ps, st.histories) && k in st.histories
    requires forall i :: 0 <= i < |ps| ==> ps[i].name != k
    ensures Dispatch(ps, ms, t, st).histories[k] == st.histories[k]
    decreases |ps|
  {
    if ps != [] {
      var n := |ps| - 1;
      assert forall i :: 0 <= i < n ==> ps[..n][i] == ps[i];
      DispatchLeavesOthers(ps[..n], ms[..n], t, st, k);
    }
  }

  /**
   * With distinct names, pattern `i`'s container changes only by its own
   * policy, and only when pattern `i` matched: `True` appends the tuple,
   * `None` leaves it, a custom updater folds the tuple in.
   */
  lemma {:induction false} DispatchHistoryAt(ps: seq<Pattern>, ms: seq<Option<Bindings>>, t: EventTuple,
                                             st: Held, i: nat)
    requires |ms| == |ps| && Recorded(ps, st.histories) && DistinctNames(ps)
    requires i < |ps| && ps[i].name in st.histories
    ensures Dispatch(ps, ms, t, st).histories[ps[i].name] ==
              if ms[i].Some? then Updated(ps[i].record, st.histories[ps[i].name], t)
              else st.histories[ps[i].name]
    decreases |ps|
  {
    var n := |ps| - 1;
    assert forall j :: 0 <= j < n ==> ps[..n][j] == ps[j];
    if i < n {
      DispatchHistoryAt(ps[..n], ms[..n], t, st, i);
    } else {
      DispatchLeavesOthers(ps[..n], ms[..n], t, st, ps[i].name);
    }
  }

  /** One triggered event: its tuple and the match result of every pattern. */
  datatype Round = Round(t: EventTuple, ms: seq<Option<Bindings>>)

  predicate Shaped(ps: seq<Pattern>, rounds: seq<Round>) {
    forall r :: 0 <= r < |rounds| ==> |rounds[r].ms| == |ps|
  }

  /** Several events triggered one after the other. */
  function DispatchAll(ps: seq<Pattern>, rounds: seq<Round>, st: Held): (r: Held)
    requires Shaped(ps, rounds) && Recorded(ps, st.histories)
    ensures r.histories.Keys == st.histories.Keys
    decreases |rounds|
  {
    if rounds == [] then st
    else
      var n := |rounds| - 1;
      assert Shaped(ps, rounds[..n]);
      Dispatch(ps, rounds[n].ms, rounds[n].t, DispatchAll(ps, rounds[..n], st))
  }

  /** The tuples of the rounds in which pattern `i` matched, in order. */
  function MatchedTuples(rounds: seq<Round>, i: nat): seq<EventTuple>
    requires forall r :: 0 <= r < |rounds| ==> i < |rounds[r].ms|
    decreases |rounds|
  {
    if rounds == [] then []
    else
      var n := |rounds| - 1;
      MatchedTuples(rounds[..n], i) + (if rounds[n].ms[i].Some? then [rounds[n].t] else [])
  }

  /**
   * An append-policy container, after any number of events, holds its
   * previous contents followed by the tuples of the events its pattern
   * matched, in the order they were triggered.
   */
  lemma {:induction false} AppendHistoryReplays(ps: seq<Pattern>, rounds: seq<Round>, st: Held, i: nat)
    requires Shaped(ps, rounds) && Recorded(ps, st.histories) && DistinctNames(ps)
    requires i < |ps| && ps[i].record.AppendRaw?
    ensures ps[i].name in DispatchAll(ps, rounds, st).histories
    ensures DispatchAll(ps, rounds, st).histories[ps[i].name] ==
              st.histories[ps[i].name] + MatchedTuples(rounds, i)
    decreases |rounds|
  {
    if rounds != [] {
      var n := |rounds| - 1;
      assert Shaped(ps, rounds[..n]);
      AppendHistoryReplays(ps, rounds[..n], st, i);
      var mid := DispatchAll(ps, rounds[..n], st);
      DispatchHistoryAt(ps, rounds[n].ms, rounds[n].t, mid, i);
    }
  }
}
