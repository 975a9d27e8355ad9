/** What the dequeuers of one producer's sub-queue return over a whole run: each element once, with its index,
    and to any one dequeuer in the order in which they were enqueued. */
module ImplicitReturns {
  import C = DequeueCounters
  import opened ImplicitProducer
  import opened ImplicitSteps
  import opened ImplicitRuns

  /** Dequeuer t returned the element v it had claimed index i for. */
  datatype Returned<T> = Returned(t: nat, i: nat, v: T)

  /** What a step returns to its caller, if anything. */
  function Output<T>(s: State<T>, c: Choice<T>): seq<Returned<T>>
    requires Runnable(c, |s.jobs|) && |s.jobs| == |s.c.pcs|
  {
    if c.Dequeue? && s.c.pcs[c.t].Have? && s.jobs[c.t].JDone? then [Returned(c.t, s.c.pcs[c.t].i, s.jobs[c.t].v)]
    else []
  }

  /** All that is returned over a run, in order. */
  ghost function Trace<T>(s: State<T>, run: seq<Choice<T>>): seq<Returned<T>>
    requires Inv(s) && forall i :: 0 <= i < |run| ==> Runnable(run[i], |s.jobs|)
    decreases |run|
  {
    if run == [] then []
    else
      StepKeepsInv(s, run[0]);
      Output(s, run[0]) + Trace(Step(s, run[0]), run[1..])
  }

  // ---- invariant ----------------------------------------------------------------------------------

  ghost predicate Logged<T>(log: seq<Returned<T>>, i: nat) { exists a :: 0 <= a < |log| && log[a].i == i }

  ghost predicate Held<T>(s: State<T>, i: nat) { exists t :: 0 <= t < |s.c.pcs| && s.c.pcs[t] == C.Have(i) }

  /** What was returned at different times: different indices, ascending for one dequeuer. */
  ghost predicate Ordered<T>(log: seq<Returned<T>>) {
    forall a, b :: 0 <= a < b < |log| ==> log[a].i != log[b].i && (log[a].t == log[b].t ==> log[a].i < log[b].i)
  }

  ghost predicate Elements<T>(log: seq<Returned<T>>, head: nat, enq: seq<T>) {
    head <= |enq| && forall a :: 0 <= a < |log| ==> log[a].i < head && log[a].v == enq[log[a].i]
  }

  /** An index still held has not been returned, and lies behind all that its holder returned. */
  ghost predicate Fresh<T>(log: seq<Returned<T>>, pcs: seq<C.Pc>) {
    forall a, u :: 0 <= a < |log| && 0 <= u < |pcs| && pcs[u].Have? ==>
      log[a].i != pcs[u].i && (log[a].t == u ==> log[a].i < pcs[u].i)
  }

  ghost predicate LogOk<T>(s: State<T>, log: seq<Returned<T>>) {
    && Ordered(log) && Elements(log, s.c.head, s.enq) && Fresh(log, s.c.pcs)
    && forall i: nat :: i < s.c.head ==> Logged(log, i) || Held(s, i)
  }

  // ---- steps --------------------------------------------------------------------------------------

  /** A step but a return: the indices held stay so, and the head comes to be held when it moves. */
  ghost predicate Claims<T>(s: State<T>, s': State<T>) {
    && |s'.c.pcs| == |s.c.pcs| && s.enq <= s'.enq && s.c.head <= s'.c.head <= s.c.head + 1
    && (forall u :: 0 <= u < |s.c.pcs| && s.c.pcs[u].Have? ==> s'.c.pcs[u] == s.c.pcs[u])
    && (forall u :: 0 <= u < |s.c.pcs| && s'.c.pcs[u].Have? && s.c.pcs[u] != s'.c.pcs[u] ==>
         s'.c.pcs[u].i == s.c.head < s'.c.head)
    && (s.c.head < s'.c.head ==> Held(s', s.c.head))
  }

  lemma EnqueuerClaims<T>(s: State<T>, x: T, ok: bool, b: nat, junk: int)
    requires ProdInRange(s)
    ensures Claims(s, ProdStep(s, x, ok, b, junk))
  {
    hide Doubled, At, Pos;
  }

  lemma CountClaims<T>(s: State<T>, t: nat)
    requires t < |s.jobs| == |s.c.pcs| && !s.c.pcs[t].Have?
    ensures Claims(s, Count(s, t))
  {
    if s.c.pcs[t].Claim? { assert Count(s, t).c.pcs[t] == C.Have(s.c.head); }
  }

  lemma DequeuerClaims<T>(s: State<T>, t: nat)
    requires t < |s.jobs| == |s.c.pcs| && (s.c.pcs[t].Have? ==> JobInRange(s, t) && !s.jobs[t].JDone?)
    ensures Claims(s, DequeueStep(s, t))
  {
    if !s.c.pcs[t].Have? { CountClaims(s, t); }
  }

  lemma StepClaims<T>(s: State<T>, c: Choice<T>)
    requires Inv(s) && Runnable(c, |s.jobs|) && Output(s, c) == []
    ensures ProdInRange(s) && (c.Dequeue? && s.c.pcs[c.t].Have? ==> JobInRange(s, c.t))
    ensures Claims(s, Step(s, c)) && |Step(s, c).enq| >= Step(s, c).c.head
  {
    hide Inv, Claims, ProdInRange, JobInRange;
    StepKeepsInv(s, c);
    HeadInEnqueued(s);
    HeadInEnqueued(Step(s, c));
    match c
    case Enqueue(x, ok, b, junk) => EnqueuerClaims(s, x, ok, b, junk);
    case Dequeue(t) => DequeuerClaims(s, t);
  }

  lemma HeadInEnqueued<T>(s: State<T>)
    requires Inv(s)
    ensures s.c.head <= |s.enq| && |s.jobs| == |s.c.pcs|
  {
    TailBound(s);
    C.HeadWithinTail(s.c);
  }

  lemma ClaimsKeepLog<T>(s: State<T>, s': State<T>, log: seq<Returned<T>>)
    requires LogOk(s, log) && Claims(s, s') && s'.c.head <= |s'.enq|
    ensures LogOk(s', log)
  {
    forall i: nat | i < s'.c.head ensures Logged(log, i) || Held(s', i) {
      if i < s.c.head && !Logged(log, i) {
        var t :| 0 <= t < |s.c.pcs| && s.c.pcs[t] == C.Have(i);
        assert s'.c.pcs[t] == C.Have(i);
      }
    }
    hide Logged, Held;
  }

  lemma ReturnKeepsLog<T>(s: State<T>, t: nat, log: seq<Returned<T>>)
    requires Inv(s) && LogOk(s, log) && t < |s.jobs| && s.c.pcs[t].Have? && s.jobs[t].JDone?
    ensures JobInRange(s, t)
    ensures LogOk(Return(s, t), log + [Returned(t, s.c.pcs[t].i, s.jobs[t].v)])
  {
    DequeuerInRange(s, t);
    DoneFacts(s, t);
    hide Inv;
    var log' := log + [Returned(t, s.c.pcs[t].i, s.jobs[t].v)];
    forall i: nat | i < s.c.head ensures Logged(log', i) || Held(Return(s, t), i) {
      StillAccounted(s, t, log, i);
    }
    hide Logged, Held, JobInRange;
  }

  lemma StillAccounted<T>(s: State<T>, t: nat, log: seq<Returned<T>>, i: nat)
    requires JobInRange(s, t) && s.jobs[t].JDone? && (Logged(log, i) || Held(s, i)) && |s.jobs| == |s.c.pcs|
    ensures Logged(log + [Returned(t, s.c.pcs[t].i, s.jobs[t].v)], i) || Held(Return(s, t), i)
  {
    var log' := log + [Returned(t, s.c.pcs[t].i, s.jobs[t].v)];
    if Logged(log, i) {
      var a :| 0 <= a < |log| && log[a].i == i;
      assert log'[a].i == i;
    } else {
      var u :| 0 <= u < |s.c.pcs| && s.c.pcs[u] == C.Have(i);
      if u == t { assert log'[|log|].i == i; } else { assert Return(s, t).c.pcs[u] == C.Have(i); }
    }
  }

  /** What a dequeuer that is done returns, and that nobody else holds its index. */
  lemma DoneFacts<T>(s: State<T>, t: nat)
    requires Inv(s) && t < |s.jobs| && s.c.pcs[t].Have? && s.jobs[t].JDone?
    ensures |s.jobs| == |s.c.pcs| && s.c.pcs[t].i < s.c.head <= |s.enq| && s.jobs[t].v == s.enq[s.c.pcs[t].i]
    ensures forall u :: 0 <= u < |s.jobs| && u != t && s.c.pcs[u].Have? ==> s.c.pcs[u].i != s.c.pcs[t].i
  {
    BlockFacts(s, t);
    HeadInEnqueued(s);
    hide Jobs, Uses, Blocks, IndexOk, UseOk, BlockOk;
  }

  lemma StepKeepsLog<T>(s: State<T>, c: Choice<T>, log: seq<Returned<T>>)
    requires Inv(s) && LogOk(s, log) && Runnable(c, |s.jobs|)
    ensures |s.jobs| == |s.c.pcs| && ProdInRange(s) && (c.Dequeue? && s.c.pcs[c.t].Have? ==> JobInRange(s, c.t))
    ensures LogOk(Step(s, c), log + Output(s, c))
  {
    hide Inv, LogOk, ProdInRange, JobInRange, Claims;
    StepKeepsInv(s, c);
    HeadInEnqueued(s);
    if Output(s, c) == [] {
      StepClaims(s, c);
      ClaimsKeepLog(s, Step(s, c), log);
      assert log + [] == log;
    } else {
      ReturnKeepsLog(s, c.t, log);
    }
  }

  lemma {:induction false} RunKeepsLog<T>(s: State<T>, run: seq<Choice<T>>, log: seq<Returned<T>>)
    requires Inv(s) && LogOk(s, log) && forall i :: 0 <= i < |run| ==> Runnable(run[i], |s.jobs|)
    ensures LogOk(Exec(s, run), log + Trace(s, run))
    decreases |run|
  {
    hide Inv, LogOk, ProdInRange, JobInRange, Output;
    if run == [] {
      assert log + [] == log;
    } else {
      StepKeepsInv(s, run[0]);
      StepKeepsLog(s, run[0], log);
      RunKeepsLog(Step(s, run[0]), run[1..], log + Output(s, run[0]));
      assert (log + Output(s, run[0])) + Trace(Step(s, run[0]), run[1..]) == log + Trace(s, run);
    }
  }

  // ---- what is returned over a run --------------------------------------------------------------------

  /** Over any run from construction no element is returned twice, what is returned is what was enqueued at its
      index, and each dequeuer gets its elements in the order in which they were enqueued. */
  lemma ReturnedOnce<T>(s0: State<T>, cap: nat, run: seq<Choice<T>>)
    requires Initial(s0, cap) && forall i :: 0 <= i < |run| ==> Runnable(run[i], |s0.jobs|)
    ensures Inv(s0)
    ensures Elements(Trace(s0, run), Exec(s0, run).c.head, Exec(s0, run).enq) && Ordered(Trace(s0, run))
  {
    hide Initial, Inv, Ordered, Elements, Fresh, Logged, Held;
    StartsEmpty(s0, cap);
    RunKeepsLog(s0, run, []);
    assert [] + Trace(s0, run) == Trace(s0, run);
  }

  /** And with no dequeue under way at its end, all that was claimed has been returned. */
  lemma AllReturned<T>(s0: State<T>, cap: nat, run: seq<Choice<T>>, i: nat)
    requires Initial(s0, cap) && forall i :: 0 <= i < |run| ==> Runnable(run[i], |s0.jobs|)
    ensures Inv(s0)
    ensures var s := Exec(s0, run);
      i < s.c.head && (forall t :: 0 <= t < |s.c.pcs| ==> s.c.pcs[t].DIdle?) ==> Logged(Trace(s0, run), i)
  {
    hide Initial, Inv, Ordered, Elements, Fresh, Logged;
    StartsEmpty(s0, cap);
    RunKeepsLog(s0, run, []);
    assert [] + Trace(s0, run) == Trace(s0, run);
  }

  lemma StartsEmpty<T>(s0: State<T>, cap: nat)
    requires Initial(s0, cap)
    ensures Inv(s0) && LogOk(s0, [])
  {
    InitialInv(s0, cap);
    hide Inv;
  }
}
