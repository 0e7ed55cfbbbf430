/**
 * The label scheduler: which queued jobs run at a label checkpoint, in
 * what order, and which stay queued.
 */
module JobQueue {
  import opened Wrappers
  import opened Events

  /**
   * A handler admits a label when its inclusion set is absent or holds the
   * name, and its exclusion set is absent or lacks it.
   */
  predicate Admissible(h: Handler, name: Label) {
    && (h.labels.None? || name in h.labels.value)
    && (h.notlabels.None? || name !in h.notlabels.value)
  }

  /**
   * What calling a handler with its bindings does: it returns, it raises
   * `TypeError` (caught and logged), or it raises anything else, which
   * leaves the scan and propagates to the caller.
   */
  datatype CallResult = Returned | RaisedTypeError | RaisedOther

  /**
   * The outcome of each handler call of one pass: `call(n, j)` is what the
   * `n`-th call (counting from 0) does when it is made on job `j`. Keying on
   * the position lets a stateful handler behave differently on two equal
   * jobs.
   */
  type Outcomes = (nat, Job) -> CallResult

  /**
   * The state of one pass over the queue: the jobs carried into the new
   * queue, the jobs whose handlers were called (in call order), and
   * whether the pass reached the end of the queue.
   */
  datatype Scan = Scan(kept: seq<Job>, ran: seq<Job>, completed: bool)

  /** The pass over `q` at label `name`, one job at a time from the front. */
  function ScanJobs(q: seq<Job>, name: Label, call: Outcomes): Scan
    decreases |q|
  {
    if q == [] then Scan([], [], true)
    else
      var s := ScanJobs(q[..|q| - 1], name, call);
      var j := q[|q| - 1];
      if !s.completed then s
      else if Admissible(j.handler, name) then Scan(s.kept, s.ran + [j], call(|s.ran|, j) != RaisedOther)
      else Scan(s.kept + [j], s.ran, true)
  }

  /** Reference definition: the order-preserving filter of the jobs label `name` does not admit. */
  function Waiting(q: seq<Job>, name: Label): seq<Job> {
    if q == [] then []
    else (if Admissible(q[0].handler, name) then [] else [q[0]]) + Waiting(q[1..], name)
  }

  /** Reference definition: the order-preserving filter of the jobs label `name` admits. */
  function Runnable(q: seq<Job>, name: Label): seq<Job> {
    if q == [] then []
    else (if Admissible(q[0].handler, name) then [q[0]] else []) + Runnable(q[1..], name)
  }

  lemma {:induction false} FiltersAppend(a: seq<Job>, b: seq<Job>, name: Label)
    ensures Waiting(a + b, name) == Waiting(a, name) + Waiting(b, name)
    ensures Runnable(a + b, name) == Runnable(a, name) + Runnable(b, name)
  {
    if a != [] {
      assert (a + b)[0] == a[0];
      assert (a + b)[1..] == a[1..] + b;
      FiltersAppend(a[1..], b, name);
    } else {
      assert a + b == b;
    }
  }

  /** The filters keep exactly the jobs with, respectively without, an admissible handler. */
  lemma {:induction false} FilterMembers(q: seq<Job>, name: Label)
    ensures forall j :: j in Waiting(q, name) <==> j in q && !Admissible(j.handler, name)
    ensures forall j :: j in Runnable(q, name) <==> j in q && Admissible(j.handler, name)
  {
    if q != [] {
      FilterMembers(q[1..], name);
      assert q == [q[0]] + q[1..];
    }
  }

  /** No job is lost or duplicated: the two filters split the queue's multiset. */
  lemma {:induction false} FiltersPartition(q: seq<Job>, name: Label)
    ensures multiset(Waiting(q, name)) + multiset(Runnable(q, name)) == multiset(q)
  {
    if q != [] {
      FiltersPartition(q[1..], name);
      assert q == [q[0]] + q[1..];
    }
  }

  /** Every copy of a job its label does not admit survives into `Waiting`, and no other job does. */
  lemma {:induction false} WaitingKeepsCopies(q: seq<Job>, name: Label)
    ensures forall j :: multiset(Waiting(q, name))[j] ==
                          if Admissible(j.handler, name) then 0 else multiset(q)[j]
  {
    FiltersPartition(q, name);
    FilterMembers(q, name);
    forall j: Job
      ensures multiset(Waiting(q, name))[j] == if Admissible(j.handler, name) then 0 else multiset(q)[j]
    {
      assert multiset(Waiting(q, name))[j] + multiset(Runnable(q, name))[j] == multiset(q)[j];
      if Admissible(j.handler, name) {
        assert j !in Waiting(q, name);
      } else {
        assert j !in Runnable(q, name);
      }
    }
  }

  /** Checking the survivors again at the same label runs nothing and keeps them all. */
  lemma {:induction false} RescanRunsNothing(q: seq<Job>, name: Label)
    ensures Runnable(Waiting(q, name), name) == []
    ensures Waiting(Waiting(q, name), name) == Waiting(q, name)
  {
    if q != [] {
      var head := if Admissible(q[0].handler, name) then [] else [q[0]];
      RescanRunsNothing(q[1..], name);
      FiltersAppend(head, Waiting(q[1..], name), name);
      assert head != [] ==> head[1..] == [];
    }
  }

  /** Once the pass has stopped on a raising handler, later jobs are never reached. */
  lemma {:induction false} AbortSticks(q: seq<Job>, name: Label, call: Outcomes, k: nat)
    requires k <= |q|
    requires !ScanJobs(q[..k], name, call).completed
    ensures ScanJobs(q, name, call) == ScanJobs(q[..k], name, call)
    decreases |q|
  {
    if k < |q| {
      var front := q[..|q| - 1];
      assert front[..k] == q[..k];
      AbortSticks(front, name, call, k);
    } else {
      assert q[..k] == q;
    }
  }

  /**
   * A completed pass agrees with the reference filters: the new queue is
   * exactly the inadmissible jobs in their original order, and the
   * admissible ones were called in FIFO order.
   */
  lemma {:induction false} ScanMatchesFilters(q: seq<Job>, name: Label, call: Outcomes)
    ensures var s := ScanJobs(q, name, call);
            s.completed ==> s.kept == Waiting(q, name) && s.ran == Runnable(q, name)
    decreases |q|
  {
    if q != [] {
      var front := q[..|q| - 1];
      var j := q[|q| - 1];
      assert q == front + [j];
      ScanMatchesFilters(front, name, call);
      FiltersAppend(front, [j], name);
      assert Waiting([j], name) == (if Admissible(j.handler, name) then [] else [j]);
      assert Runnable([j], name) == (if Admissible(j.handler, name) then [j] else []);
      if !ScanJobs(front, name, call).completed {
        AbortSticks(q, name, call, |q| - 1);
      }
    }
  }

  /** Every handler a completed pass called returned or raised `TypeError`. */
  lemma {:induction false} CompletedRanReturned(q: seq<Job>, name: Label, call: Outcomes)
    ensures var s := ScanJobs(q, name, call);
            s.completed ==> forall k :: 0 <= k < |s.ran| ==> call(k, s.ran[k]) != RaisedOther
    decreases |q|
  {
    if q != [] {
      CompletedRanReturned(q[..|q| - 1], name, call);
    }
  }

  /**
   * The pass completes iff none of the calls it would make on the
   * admissible jobs, in queue order, raises an exception other than
   * `TypeError`.
   */
  lemma {:induction false} ScanCompletesIff(q: seq<Job>, name: Label, call: Outcomes)
    ensures ScanJobs(q, name, call).completed ==>
              forall k :: 0 <= k < |Runnable(q, name)| ==> call(k, Runnable(q, name)[k]) != RaisedOther
    ensures (forall k :: 0 <= k < |Runnable(q, name)| ==> call(k, Runnable(q, name)[k]) != RaisedOther) ==>
              ScanJobs(q, name, call).completed
  {
    var s := ScanJobs(q, name, call);
    ScanMatchesFilters(q, name, call);
    CompletedRanReturned(q, name, call);
    CompletesWhenAllReturn(q, name, call);
    if s.completed {
      assert s.ran == Runnable(q, name);
      assert forall k :: 0 <= k < |s.ran| ==> call(k, s.ran[k]) != RaisedOther;
    } else {
      assert !forall k :: 0 <= k < |Runnable(q, name)| ==> call(k, Runnable(q, name)[k]) != RaisedOther;
    }
  }

  /** Helper for the converse half of `ScanCompletesIff`, by induction on the queue. */
  lemma {:induction false} CompletesWhenAllReturn(q: seq<Job>, name: Label, call: Outcomes)
    ensures (forall k :: 0 <= k < |Runnable(q, name)| ==> call(k, Runnable(q, name)[k]) != RaisedOther) ==>
              ScanJobs(q, name, call).completed
    decreases |q|
  {
    var r := Runnable(q, name);
    if q == [] {
      assert ScanJobs(q, name, call) == Scan([], [], true);
    } else if forall k :: 0 <= k < |Runnable(q, name)| ==> call(k, Runnable(q, name)[k]) != RaisedOther {
      var front := q[..|q| - 1];
      var j := q[|q| - 1];
      var rf := Runnable(front, name);
      assert q == front + [j];
      FiltersAppend(front, [j], name);
      assert Runnable([j], name) == (if Admissible(j.handler, name) then [j] else []);
      assert r == rf + Runnable([j], name);
      assert forall k :: 0 <= k < |rf| ==> r[k] == rf[k];
      assert forall k :: 0 <= k < |rf| ==> call(k, rf[k]) != RaisedOther;
      CompletesWhenAllReturn(front, name, call);
      ScanMatchesFilters(front, name, call);
      var sf := ScanJobs(front, name, call);
      assert sf.completed && sf.ran == rf;
      if Admissible(j.handler, name) {
        assert r[|rf|] == j;
        assert call(|sf.ran|, j) != RaisedOther;
      }
      assert ScanJobs(q, name, call).completed;
    }
  }

  /**
   * A pass stopped by a raising handler has called a prefix of the
   * admissible jobs, in order, ending at the first one that raised.
   */
  lemma {:induction false} ScanAbortShape(q: seq<Job>, name: Label, call: Outcomes)
    ensures var s := ScanJobs(q, name, call);
            !s.completed ==>
              && s.ran <= Runnable(q, name)
              && |s.ran| > 0
              && call(|s.ran| - 1, s.ran[|s.ran| - 1]) == RaisedOther
              && forall k :: 0 <= k < |s.ran| - 1 ==> call(k, s.ran[k]) != RaisedOther
    decreases |q|
  {
    if q != [] {
      var front := q[..|q| - 1];
      var j := q[|q| - 1];
      var sf := ScanJobs(front, name, call);
      assert q == front + [j];
      FiltersAppend(front, [j], name);
      if !sf.completed {
        ScanAbortShape(front, name, call);
        assert ScanJobs(q, name, call) == sf;
      } else if Admissible(j.handler, name) {
        assert Runnable([j], name) == [j];
        ScanMatchesFilters(front, name, call);
        CompletedRanReturned(front, name, call);
        assert ScanJobs(q, name, call).ran == sf.ran + [j];
      }
    }
  }

  /**
   * Two equal jobs need not behave alike: a handler that returns on its
   * first call and raises on its second is called twice and stops the pass.
   */
  lemma {:induction false} EqualJobsMayDiffer(j: Job, name: Label)
    requires Admissible(j.handler, name)
    ensures var call := (n: nat, x: Job) => if n == 0 then Returned else RaisedOther;
            var s := ScanJobs([j, j], name, call);
            s.ran == [j, j] && !s.completed && s.kept == []
  {
    var call := (n: nat, x: Job) => if n == 0 then Returned else RaisedOther;
    assert [j, j][..1] == [j];
    assert [j][..0] == [];
    assert ScanJobs([j], name, call) == Scan([], [j], true);
  }
}
