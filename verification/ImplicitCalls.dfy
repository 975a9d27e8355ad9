/** What one call on one producer's sub-queue does, from the step that starts it to the one that ends it, whatever
    the other threads do in between; and that every call ends. */
module ImplicitCalls {
  import C = DequeueCounters
  import opened ImplicitProducer
  import opened ImplicitSteps
  import opened ImplicitEnqueue
  import opened ImplicitRuns
  import opened ImplicitReturns

  ghost predicate AllRunnable<T>(run: seq<Choice<T>>, threads: nat) {
    forall i :: 0 <= i < |run| ==> Runnable(run[i], threads)
  }

  /** The state after one step. */
  ghost function Next<T>(s: State<T>, c: Choice<T>): (r: State<T>)
    requires Inv(s) && Runnable(c, |s.jobs|)
    ensures Inv(r) && |r.jobs| == |s.jobs|
  {
    StepKeepsInv(s, c);
    Step(s, c)
  }

  // ---- enqueuing ----------------------------------------------------------------------------------

  /** The run ends with the first of its steps that leaves the enqueuer idle. */
  ghost predicate EndsEnqueue<T>(s: State<T>, run: seq<Choice<T>>)
    requires Inv(s) && AllRunnable(run, |s.jobs|)
    decreases |run|
  {
    && run != []
    && var s' := Next(s, run[0]);
       if |run| == 1 then s'.prod.PIdle? else !s'.prod.PIdle? && EndsEnqueue(s', run[1..])
  }

  /** The step is an allocation of the enqueuer's that fails: of a bigger index, or of a block when the pool gives
      none. */
  predicate AllocationFails<T>(s: State<T>, c: Choice<T>) {
    && c.Enqueue? && !c.allocOk
    && (s.prod.PGrow? || (s.prod.PReq? && !(c.block < |s.owner| && s.owner[c.block].Pool?)))
  }

  ghost predicate SomeAllocationFails<T>(s: State<T>, run: seq<Choice<T>>)
    requires Inv(s) && AllRunnable(run, |s.jobs|)
    decreases |run|
  {
    run != [] && (AllocationFails(s, run[0]) || SomeAllocationFails(Next(s, run[0]), run[1..]))
  }

  predicate GivingUp<T>(p: Enqueuer<T>) { p.PRewind? || p.PNull? }

  /** Inside a call that is to enqueue x: `enq` and `tail` are those of its start. */
  ghost predicate Enqueuing<T>(s: State<T>, enq: seq<T>, tail: nat, x: T) {
    && s.c.tail == tail && !s.prod.PIdle?
    && if GivingUp(s.prod) then s.enq == enq
       else s.prod.x == x && s.enq == if s.prod.PPub? then enq + [x] else enq
  }

  ghost predicate Enqueued<T>(s: State<T>, enq: seq<T>, tail: nat, x: T) { s.enq == enq + [x] && s.c.tail == tail + 1 }

  /** What a step of the enqueuer's own makes of the call. */
  ghost predicate StepsOn<T>(s: State<T>, s': State<T>, failed: bool, enq: seq<T>, tail: nat, x: T) {
    if s'.prod.PIdle? then
      Enqueued(s', enq, tail, x) || (s'.enq == enq && s'.c.tail == tail && (GivingUp(s.prod) || failed))
    else Enqueuing(s', enq, tail, x) && (GivingUp(s'.prod) ==> GivingUp(s.prod) || failed)
  }

  lemma IndexSteps<T>(s: State<T>, x: T, ok: bool, b: nat, junk: int, enq: seq<T>, tail: nat, y: T)
    requires ProdInRange(s) && Enqueuing(s, enq, tail, y) && (s.prod.PHead? ==> CheckHead(s).prod.PSlot?)
    requires s.prod.PHead? || s.prod.PSlot? || s.prod.PGrow? || s.prod.PKey? || s.prod.PTail? || s.prod.PReq?
    ensures StepsOn(s, ProdStep(s, x, ok, b, junk), AllocationFails(s, Enqueue(x, ok, b, junk)), enq, tail, y)
  {
    hide Doubled, At, Pos, Cur, Sized;
  }

  lemma BlockSteps<T>(s: State<T>, x: T, ok: bool, b: nat, junk: int, enq: seq<T>, tail: nat, y: T)
    requires ProdInRange(s) && Enqueuing(s, enq, tail, y)
    requires !(s.prod.PHead? || s.prod.PSlot? || s.prod.PGrow? || s.prod.PKey? || s.prod.PTail? || s.prod.PReq?)
    ensures StepsOn(s, ProdStep(s, x, ok, b, junk), AllocationFails(s, Enqueue(x, ok, b, junk)), enq, tail, y)
  {
    hide Doubled, At, Pos, Cur, Sized;
  }

  lemma EnqueuerStays<T>(s: State<T>, x: T, ok: bool, b: nat, junk: int, enq: seq<T>, tail: nat, y: T)
    requires ProdInRange(s) && Enqueuing(s, enq, tail, y) && (s.prod.PHead? ==> CheckHead(s).prod.PSlot?)
    ensures StepsOn(s, ProdStep(s, x, ok, b, junk), AllocationFails(s, Enqueue(x, ok, b, junk)), enq, tail, y)
  {
    hide ProdInRange, Enqueuing, ProdStep, StepsOn;
    if s.prod.PHead? || s.prod.PSlot? || s.prod.PGrow? || s.prod.PKey? || s.prod.PTail? || s.prod.PReq? {
      IndexSteps(s, x, ok, b, junk, enq, tail, y);
    } else {
      BlockSteps(s, x, ok, b, junk, enq, tail, y);
    }
  }

  lemma DequeuerLeaves<T>(s: State<T>, t: nat)
    requires t < |s.jobs| == |s.c.pcs| && (s.c.pcs[t].Have? ==> JobInRange(s, t))
    ensures var s' := DequeueStep(s, t); s'.prod == s.prod && s'.enq == s.enq && s'.c.tail == s.c.tail
  {
    hide At, Pos;
  }

  lemma StaysEnqueuing<T>(s: State<T>, c: Choice<T>, enq: seq<T>, tail: nat, x: T)
    requires Inv(s) && Runnable(c, |s.jobs|) && Enqueuing(s, enq, tail, x)
    ensures ProdInRange(s) && (c.Dequeue? && s.c.pcs[c.t].Have? ==> JobInRange(s, c.t))
    ensures StepsOn(s, Step(s, c), AllocationFails(s, c), enq, tail, x)
  {
    hide Inv, ProdInRange, JobInRange, DequeueStep;
    StepKeepsInv(s, c);
    HeadInEnqueued(s);
    match c
    case Enqueue(y, ok, b, junk) =>
      if s.prod.PHead? { KeepCheckHead(s); }
      hide ProdStep;
      EnqueuerStays(s, y, ok, b, junk, enq, tail, x);
    case Dequeue(t) => DequeuerLeaves(s, t);
  }

  lemma {:induction false} EnqueuingAnswers<T>(s: State<T>, run: seq<Choice<T>>, enq: seq<T>, tail: nat, x: T)
    requires Inv(s) && AllRunnable(run, |s.jobs|) && EndsEnqueue(s, run) && Enqueuing(s, enq, tail, x)
    ensures var e := Exec(s, run);
      Enqueued(e, enq, tail, x)
      || (e.enq == enq && e.c.tail == tail && (GivingUp(s.prod) || SomeAllocationFails(s, run)))
    decreases |run|
  {
    hide Inv, Step, Enqueuing, Enqueued, AllocationFails, GivingUp;
    StepKeepsInv(s, run[0]);
    StaysEnqueuing(s, run[0], enq, tail, x);
    var s' := Step(s, run[0]);
    if |run| == 1 {
      assert run[1..] == [];
    } else {
      EnqueuingAnswers(s', run[1..], enq, tail, x);
    }
  }

  /** A call that is to enqueue x, whatever the dequeuers do meanwhile: it has enqueued x and moved the tail by one,
      or it has done neither, and that only if an allocation of its own has failed. */
  lemma EnqueueAnswers<T>(s: State<T>, run: seq<Choice<T>>, x: T)
    requires Inv(s) && AllRunnable(run, |s.jobs|) && EndsEnqueue(s, run)
    requires s.prod.PIdle? && run[0].Enqueue? && run[0].x == x
    ensures var e := Exec(s, run);
      || (e.enq == s.enq + [x] && e.c.tail == s.c.tail + 1)
      || (e.enq == s.enq && e.c.tail == s.c.tail && SomeAllocationFails(s, run))
  {
    hide Inv;
    StepKeepsInv(s, run[0]);
    EnqueuingAnswers(Step(s, run[0]), run[1..], s.enq, s.c.tail, x);
  }

  function EnqueuerRank<T>(p: Enqueuer<T>): nat {
    match p
    case PIdle => 0
    case PPub(_) => 1
    case PWrite(_) => 2
    case PVal(_, _, _) => 3
    case PReset(_, _, _) => 4
    case PNull(_) => 1
    case PRewind(_) => 2
    case PReq(_, _) => 5
    case PTail(_, _, _) => 6
    case PKey(_, _, _) => 7
    case PGrow(_) => 8
    case PSlot(_) => 9
    case PHead(_) => 10
  }

  function EnqueuerTurns<T>(run: seq<Choice<T>>): nat {
    if run == [] then 0 else (if run[0].Enqueue? then 1 else 0) + EnqueuerTurns(run[1..])
  }

  lemma EnqueuerRankFalls<T>(s: State<T>, x: T, ok: bool, b: nat, junk: int)
    requires ProdInRange(s)
    ensures var s' := ProdStep(s, x, ok, b, junk);
      s.prod.PIdle? || EnqueuerRank(s'.prod) < EnqueuerRank(s.prod)
  {
    hide Doubled, At, Pos;
  }

  lemma EnqueuerProgress<T>(s: State<T>, c: Choice<T>)
    requires Inv(s) && Runnable(c, |s.jobs|) && !s.prod.PIdle?
    ensures ProdInRange(s) && (c.Dequeue? && s.c.pcs[c.t].Have? ==> JobInRange(s, c.t))
    ensures EnqueuerRank(Step(s, c).prod) + (if c.Enqueue? then 1 else 0) <= EnqueuerRank(s.prod)
  {
    hide Inv, ProdInRange, JobInRange, DequeueStep, ProdStep, EnqueuerRank;
    StepKeepsInv(s, c);
    HeadInEnqueued(s);
    match c
    case Enqueue(y, ok, b, junk) => EnqueuerRankFalls(s, y, ok, b, junk);
    case Dequeue(t) => DequeuerLeaves(s, t);
  }

  /** A call of the enqueuer under way ends after at most 10 steps of its own, whatever the dequeuers do. */
  lemma {:induction false} EnqueueEnds<T>(s: State<T>, run: seq<Choice<T>>) returns (n: nat)
    requires Inv(s) && AllRunnable(run, |s.jobs|) && !s.prod.PIdle? && EnqueuerRank(s.prod) <= EnqueuerTurns(run)
    ensures n <= |run| && EndsEnqueue(s, run[..n])
    decreases |run|
  {
    hide Inv, Step;
    EnqueuerRankZero(s.prod);
    hide EnqueuerRank;
    StepKeepsInv(s, run[0]);
    EnqueuerProgress(s, run[0]);
    var s' := Step(s, run[0]);
    if s'.prod.PIdle? {
      n := 1;
    } else {
      n := EnqueueEnds(s', run[1..]);
      n := n + 1;
      assert run[..n][1..] == run[1..][..n - 1];
    }
  }

  lemma EnqueuerRankZero<T>(p: Enqueuer<T>)
    ensures p.PIdle? <==> EnqueuerRank(p) == 0
  {
  }

  // ---- dequeuing ----------------------------------------------------------------------------------

  /** The run ends with the first of its steps that leaves dequeuer t idle. */
  ghost predicate EndsDequeue<T>(s: State<T>, run: seq<Choice<T>>, t: nat)
    requires Inv(s) && AllRunnable(run, |s.jobs|) && t < |s.jobs|
    decreases |run|
  {
    && run != [] && |s.jobs| == |s.c.pcs|
    && var s' := Next(s, run[0]);
       && |s'.jobs| == |s'.c.pcs|
       && if |run| == 1 then s'.c.pcs[t].DIdle? else !s'.c.pcs[t].DIdle? && EndsDequeue(s', run[1..], t)
  }

  /** The elements published when there were `tail` of them are all claimed, about to be claimed or missed by an
      attempt under way, or made up for by attempts that gave up after there had been `over` of those. */
  ghost predicate SpokenFor(c: C.State, tail: nat, over: nat) {
    tail <= c.head + C.CountFlight(c.pcs) + (c.over - over)
  }

  /** So it is at some moment before the end of the run. */
  ghost predicate SpokenForOnce<T>(s: State<T>, run: seq<Choice<T>>, tail: nat, over: nat)
    requires Inv(s) && AllRunnable(run, |s.jobs|)
    decreases |run|
  {
    run != [] && (SpokenFor(s.c, tail, over) || SpokenForOnce(Next(s, run[0]), run[1..], tail, over))
  }

  /** What dequeuer t has returned. */
  function By<T>(log: seq<Returned<T>>, t: nat): seq<Returned<T>> {
    if log == [] then [] else (if log[0].t == t then [log[0]] else []) + By(log[1..], t)
  }

  /** Dequeuer t is inside a call that began with these counts. */
  predicate Dequeuing(p: C.Pc, tail: nat, over: nat, head: nat) {
    match p
    case DIdle => false
    case ReadOver(tl) => tail <= tl
    case ReadOpt(tl, o, _) => tail <= tl && over <= o
    case FetchOpt(o, _) => over <= o
    case ReadTail(_, o, _) => over <= o
    case Claim(_) => true
    case GiveUp(_) => true
    case Have(i) => head <= i
  }

  ghost predicate InCall(c: C.State, t: nat, tail: nat, over: nat, head: nat) {
    t < |c.pcs| && Dequeuing(c.pcs[t], tail, over, head) && tail <= c.tail && over <= c.over && head <= c.head
  }

  /** The counts only grow, and nobody but t moves t. */
  lemma OtherCount(c: C.State, t: nat, u: nat, tail: nat, over: nat, head: nat)
    requires InCall(c, t, tail, over, head) && u < |c.pcs| && u != t
    ensures InCall(C.Step(c, u), t, tail, over, head) && C.Step(c, u).pcs[t] == c.pcs[t]
  {
  }

  lemma OwnCount(c: C.State, t: nat, tail: nat, over: nat, head: nat)
    requires C.Inv(c) && InCall(c, t, tail, over, head) && !c.pcs[t].Have?
    ensures var c' := C.Step(c, t);
      if c'.pcs[t].DIdle? then c.pcs[t].GiveUp? || SpokenFor(c, tail, over)
      else InCall(c', t, tail, over, head) && (c'.pcs[t].GiveUp? ==> SpokenFor(c, tail, over))
  {
    C.RefusalMeansSpokenFor(c, t);
    hide C.Inv;
  }

  lemma StepOfOther<T>(s: State<T>, c: Choice<T>, t: nat, tail: nat, over: nat, head: nat)
    requires Inv(s) && Runnable(c, |s.jobs|) && c != Dequeue(t) && InCall(s.c, t, tail, over, head)
    ensures ProdInRange(s) && (c.Dequeue? && s.c.pcs[c.t].Have? ==> JobInRange(s, c.t))
    ensures var s' := Step(s, c);
      && InCall(s'.c, t, tail, over, head) && s'.c.pcs[t] == s.c.pcs[t] && By(Output(s, c), t) == []
      && t < |s.jobs| == |s'.jobs| && s'.jobs[t] == s.jobs[t]
  {
    hide Inv, ProdInRange, JobInRange, Dequeuing;
    StepKeepsInv(s, c);
    HeadInEnqueued(s);
    match c
    case Enqueue(y, ok, b, junk) => EnqueuerCounts(s, y, ok, b, junk);
    case Dequeue(u) => OtherDequeuer(s, t, u, tail, over, head);
  }

  lemma EnqueuerCounts<T>(s: State<T>, x: T, ok: bool, b: nat, junk: int)
    requires ProdInRange(s)
    ensures var s' := ProdStep(s, x, ok, b, junk);
      && s'.jobs == s.jobs && s'.c == s.c.(tail := s'.c.tail) && s.c.tail <= s'.c.tail
  {
    hide Doubled, At, Pos;
  }

  lemma OtherDequeuer<T>(s: State<T>, t: nat, u: nat, tail: nat, over: nat, head: nat)
    requires u < |s.jobs| == |s.c.pcs| && (s.c.pcs[u].Have? ==> JobInRange(s, u))
    requires InCall(s.c, t, tail, over, head) && u != t
    ensures var s' := DequeueStep(s, u);
      && InCall(s'.c, t, tail, over, head) && s'.c.pcs[t] == s.c.pcs[t] && s'.jobs[t] == s.jobs[t]
  {
    hide At, Pos, Dequeuing, C.Step;
    if !s.c.pcs[u].Have? { OtherCount(s.c, t, u, tail, over, head); }
  }

  lemma OwnStep<T>(s: State<T>, t: nat, tail: nat, over: nat, head: nat)
    requires Inv(s) && t < |s.jobs| && InCall(s.c, t, tail, over, head)
    ensures s.c.pcs[t].Have? ==> JobInRange(s, t)
    ensures var s' := DequeueStep(s, t);
      if s'.c.pcs[t].DIdle? then
        if s.c.pcs[t].Have? then s.jobs[t].JDone? && head <= s.c.pcs[t].i
        else s.c.pcs[t].GiveUp? || SpokenFor(s.c, tail, over)
      else
        && InCall(s'.c, t, tail, over, head) && (s.c.pcs[t].Have? ==> !s.jobs[t].JDone?)
        && (s'.c.pcs[t].GiveUp? ==> s.c.pcs[t].GiveUp? || SpokenFor(s.c, tail, over))
  {
    hide Inv, C.Step, C.Inv, SpokenFor, Dequeuing;
    DequeuerInRange(s, t);
    if !s.c.pcs[t].Have? {
      CountsInv(s);
      OwnCount(s.c, t, tail, over, head);
    } else {
      JobStays(s, t, tail, over, head);
      hide JobInRange, InCall;
    }
  }

  lemma JobStays<T>(s: State<T>, t: nat, tail: nat, over: nat, head: nat)
    requires JobInRange(s, t) && s.c.pcs[t].Have? && |s.jobs| == |s.c.pcs| && InCall(s.c, t, tail, over, head)
    ensures var s' := DequeueStep(s, t);
      if s'.c.pcs[t].DIdle? then s.jobs[t].JDone? && head <= s.c.pcs[t].i
      else InCall(s'.c, t, tail, over, head) && !s.jobs[t].JDone? && s'.c.pcs[t].Have?
  {
    hide JobInRange, At, Pos, C.Step;
  }

  lemma CountsInv<T>(s: State<T>)
    requires Inv(s)
    ensures C.Inv(s.c)
  {
    hide C.Inv;
  }

  /** What a whole call of dequeuer t comes to. */
  ghost predicate Dequeued<T>(log: seq<Returned<T>>, t: nat, head: nat, e: State<T>) {
    && |log| == 1 && log[0].t == t && head <= log[0].i < e.c.head <= |e.enq| && log[0].v == e.enq[log[0].i]
  }

  lemma OneOutput<T>(s: State<T>, c: Choice<T>)
    requires Runnable(c, |s.jobs|) && |s.jobs| == |s.c.pcs|
    ensures |Output(s, c)| <= 1
  {
  }

  lemma ByConcat<T>(xs: seq<Returned<T>>, ys: seq<Returned<T>>, t: nat)
    requires |xs| <= 1
    ensures By(xs + ys, t) == By(xs, t) + By(ys, t)
  {
    if xs == [] {
      assert xs + ys == ys;
    } else {
      assert (xs + ys)[1..] == ys && xs[1..] == [];
      assert By(xs, t) == (if xs[0].t == t then [xs[0]] else []) + By([], t);
    }
  }

  /** The step that ends the call. */
  lemma LastStep<T>(s: State<T>, t: nat, tail: nat, over: nat, head: nat)
    requires Inv(s) && t < |s.jobs| && InCall(s.c, t, tail, over, head) && Next(s, Dequeue(t)).c.pcs[t].DIdle?
    ensures var log := By(Output(s, Dequeue(t)), t);
      Dequeued(log, t, head, Next(s, Dequeue(t)))
      || (log == [] && (s.c.pcs[t].GiveUp? || SpokenFor(s.c, tail, over)))
  {
    hide Inv, JobInRange, SpokenFor, Dequeuing, DequeueStep;
    StepKeepsInv(s, Dequeue(t));
    HeadInEnqueued(s);
    OwnStep(s, t, tail, over, head);
    if s.c.pcs[t].Have? {
      DoneFacts(s, t);
      DequeuerLeaves(s, t);
      ReturnCounts(s, t);
    }
  }

  lemma ReturnCounts<T>(s: State<T>, t: nat)
    requires JobInRange(s, t) && s.c.pcs[t].Have? && s.jobs[t].JDone? && |s.jobs| == |s.c.pcs|
    ensures DequeueStep(s, t).c.head == s.c.head
  {
    hide JobInRange;
  }

  /** A step that does not end the call. */
  lemma MiddleStep<T>(s: State<T>, c: Choice<T>, t: nat, tail: nat, over: nat, head: nat)
    requires Inv(s) && Runnable(c, |s.jobs|) && t < |s.jobs| && InCall(s.c, t, tail, over, head)
    ensures ProdInRange(s) && (c.Dequeue? && s.c.pcs[c.t].Have? ==> JobInRange(s, c.t))
    ensures t < |Step(s, c).c.pcs|
    ensures var s' := Step(s, c);
      !s'.c.pcs[t].DIdle? ==>
        && InCall(s'.c, t, tail, over, head) && By(Output(s, c), t) == []
        && (s'.c.pcs[t].GiveUp? ==> s.c.pcs[t].GiveUp? || SpokenFor(s.c, tail, over))
  {
    hide Inv, ProdInRange, JobInRange, SpokenFor, Dequeuing, DequeueStep, InCall;
    StepKeepsInv(s, c);
    HeadInEnqueued(s);
    HeadInEnqueued(Step(s, c));
    if c == Dequeue(t) { OwnStep(s, t, tail, over, head); } else { StepOfOther(s, c, t, tail, over, head); }
  }

  lemma {:induction false} InCallAnswers<T>(s: State<T>, run: seq<Choice<T>>, t: nat, tail: nat, over: nat, head: nat)
    requires Inv(s) && AllRunnable(run, |s.jobs|) && t < |s.jobs| && EndsDequeue(s, run, t)
    requires InCall(s.c, t, tail, over, head)
    ensures var log := By(Trace(s, run), t);
      Dequeued(log, t, head, Exec(s, run))
      || (log == [] && (s.c.pcs[t].GiveUp? || SpokenForOnce(s, run, tail, over)))
    decreases |run|
  {
    hide Inv, Step, InCall, Dequeued, SpokenFor, Output;
    StepKeepsInv(s, run[0]);
    var s' := Next(s, run[0]);
    OneOutput(s, run[0]);
    ByConcat(Output(s, run[0]), Trace(s', run[1..]), t);
    if |run| == 1 {
      assert run[1..] == [];
      assert run[0] == Dequeue(t) by { IdleByOwnStep(s, run[0], t, tail, over, head); }
      LastStep(s, t, tail, over, head);
      assert By(Output(s, run[0]), t) + [] == By(Output(s, run[0]), t);
    } else {
      MiddleStep(s, run[0], t, tail, over, head);
      InCallAnswers(s', run[1..], t, tail, over, head);
      assert [] + By(Trace(s', run[1..]), t) == By(Trace(s', run[1..]), t);
    }
  }

  lemma IdleByOwnStep<T>(s: State<T>, c: Choice<T>, t: nat, tail: nat, over: nat, head: nat)
    requires Inv(s) && Runnable(c, |s.jobs|) && t < |s.jobs| && InCall(s.c, t, tail, over, head)
    requires t < |Next(s, c).c.pcs| && Next(s, c).c.pcs[t].DIdle?
    ensures c == Dequeue(t)
  {
    hide Inv, Step;
    if c != Dequeue(t) { StepOfOther(s, c, t, tail, over, head); }
  }

  /** A call of dequeuer t, whatever the enqueuer and the other dequeuers do meanwhile: it returns one element, the
      one enqueued at an index that was not claimed when the call began; or it returns none, and then, at some moment
      of the call, the elements published at its start were all claimed or spoken for, counting as speaking for one
      each other attempt that has given up since. */
  lemma DequeueAnswers<T>(s: State<T>, run: seq<Choice<T>>, t: nat)
    requires Inv(s) && AllRunnable(run, |s.jobs|) && t < |s.jobs| && EndsDequeue(s, run, t)
    requires s.c.pcs[t].DIdle? && run[0] == Dequeue(t)
    ensures var log := By(Trace(s, run), t);
      || Dequeued(log, t, s.c.head, Exec(s, run))
      || (log == [] && SpokenForOnce(s, run, s.c.tail, s.c.over))
  {
    hide Inv, Dequeued, SpokenFor, InCall;
    StepKeepsInv(s, run[0]);
    StartsCall(s, t);
    var s' := Next(s, run[0]);
    hide Step, ProdInRange, JobInRange;
    InCallAnswers(s', run[1..], t, s.c.tail, s.c.over, s.c.head);
    assert Trace(s, run) == [] + Trace(s', run[1..]) == Trace(s', run[1..]);
  }

  lemma StartsCall<T>(s: State<T>, t: nat)
    requires Inv(s) && t < |s.jobs| == |s.c.pcs| && s.c.pcs[t].DIdle?
    ensures var s' := Next(s, Dequeue(t));
      && t < |s'.c.pcs| && InCall(s'.c, t, s.c.tail, s.c.over, s.c.head) && s'.c.pcs[t].ReadOver?
  {
    hide Inv, ProdInRange, JobInRange;
    StepKeepsInv(s, Dequeue(t));
  }

  // ---- every dequeue ends -------------------------------------------------------------------------

  function CountRank(p: C.Pc): nat {
    match p
    case DIdle => 0
    case GiveUp(_) => 1
    case Have(_) => 1
    case Claim(_) => 11
    case ReadTail(_, _, _) => 12
    case FetchOpt(_, _) => 13
    case ReadOpt(_, _, _) => 14
    case ReadOver(_) => 15
  }

  function JobRank<T>(job: Job<T>): nat {
    match job
    case JDone(_) => 0
    case JFree(_, _) => 1
    case JClear(_, _, _) => 2
    case JCount(_, _, _) => 3
    case JMove(_, _) => 4
    case JValue(_) => 5
    case JKey(_, _, _) => 6
    case JTail(_) => 7
    case JHeader => 8
  }

  function DequeuerRank<T>(p: C.Pc, job: Job<T>): nat { CountRank(p) + if p.Have? then JobRank(job) else 0 }

  function DequeuerTurns<T>(run: seq<Choice<T>>, t: nat): nat {
    if run == [] then 0 else (if run[0] == Dequeue(t) then 1 else 0) + DequeuerTurns(run[1..], t)
  }

  lemma DequeuerRankFalls<T>(s: State<T>, t: nat)
    requires t < |s.jobs| == |s.c.pcs| && (s.c.pcs[t].Have? ==> JobInRange(s, t)) && !s.c.pcs[t].DIdle?
    ensures var s' := DequeueStep(s, t);
      DequeuerRank(s'.c.pcs[t], s'.jobs[t]) < DequeuerRank(s.c.pcs[t], s.jobs[t])
  {
    hide At, Pos;
    if s.c.pcs[t].Have? { JobRankFalls(s, t); }
    hide JobInRange;
  }

  lemma JobRankFalls<T>(s: State<T>, t: nat)
    requires JobInRange(s, t) && s.c.pcs[t].Have? && |s.jobs| == |s.c.pcs|
    ensures var s' := DequeueStep(s, t);
      DequeuerRank(s'.c.pcs[t], s'.jobs[t]) < DequeuerRank(s.c.pcs[t], s.jobs[t])
  {
    hide At, Pos, C.Step;
  }

  lemma DequeuerProgress<T>(s: State<T>, c: Choice<T>, t: nat)
    requires Inv(s) && Runnable(c, |s.jobs|) && t < |s.jobs| == |s.c.pcs| && !s.c.pcs[t].DIdle?
    ensures ProdInRange(s) && (c.Dequeue? && s.c.pcs[c.t].Have? ==> JobInRange(s, c.t))
    ensures var s' := Step(s, c);
      && t < |s'.jobs| == |s'.c.pcs|
      && DequeuerRank(s'.c.pcs[t], s'.jobs[t]) + (if c == Dequeue(t) then 1 else 0)
           <= DequeuerRank(s.c.pcs[t], s.jobs[t])
  {
    hide Inv, ProdInRange, JobInRange, DequeueStep, ProdStep, DequeuerRank;
    StepKeepsInv(s, c);
    HeadInEnqueued(s);
    HeadInEnqueued(Step(s, c));
    if c == Dequeue(t) { DequeuerRankFalls(s, t); } else { OthersLeave(s, c, t); }
  }

  lemma OthersLeave<T>(s: State<T>, c: Choice<T>, t: nat)
    requires Inv(s) && Runnable(c, |s.jobs|) && t < |s.jobs| == |s.c.pcs| && c != Dequeue(t)
    ensures ProdInRange(s) && (c.Dequeue? && s.c.pcs[c.t].Have? ==> JobInRange(s, c.t))
    ensures var s' := Step(s, c);
      t < |s'.jobs| == |s'.c.pcs| && s'.c.pcs[t] == s.c.pcs[t] && s'.jobs[t] == s.jobs[t]
  {
    hide Inv, ProdInRange, JobInRange, ProdStep, At, Pos;
    StepKeepsInv(s, c);
    match c
    case Enqueue(y, ok, b, junk) => EnqueuerCounts(s, y, ok, b, junk);
    case Dequeue(u) =>
  }

  /** A call of dequeuer t under way ends after at most 15 steps of its own, whatever the others do: none of its
      loads and additions is ever repeated. */
  lemma {:induction false} DequeueEnds<T>(s: State<T>, run: seq<Choice<T>>, t: nat) returns (n: nat)
    requires Inv(s) && AllRunnable(run, |s.jobs|) && t < |s.jobs| == |s.c.pcs| && !s.c.pcs[t].DIdle?
    requires DequeuerRank(s.c.pcs[t], s.jobs[t]) <= DequeuerTurns(run, t)
    ensures n <= |run| && EndsDequeue(s, run[..n], t)
    decreases |run|
  {
    hide Inv, Step, JobRank;
    assert 0 < DequeuerRank(s.c.pcs[t], s.jobs[t]);
    hide DequeuerRank;
    StepKeepsInv(s, run[0]);
    DequeuerProgress(s, run[0], t);
    var s' := Next(s, run[0]);
    if s'.c.pcs[t].DIdle? {
      n := 1;
    } else {
      n := DequeueEnds(s', run[1..], t);
      n := n + 1;
      assert run[..n][1..] == run[1..][..n - 1];
    }
  }

  // ---- a dequeue alone ----------------------------------------------------------------------------

  /** n steps of dequeuer t, with everybody else standing still. */
  function Alone<T>(t: nat, n: nat): (run: seq<Choice<T>>)
    ensures |run| == n && forall i :: 0 <= i < n ==> run[i] == Dequeue(t)
  {
    if n == 0 then [] else [Dequeue(t)] + Alone(t, n - 1)
  }

  /** On its way to index h, which is there for the taking. */
  predicate Heading(c: C.State, t: nat, h: nat) {
    && t < |c.pcs|
    && match c.pcs[t]
       case ReadOver(tail) => c.head == h == c.opt - c.over && h < tail <= c.tail
       case ReadOpt(tail, over, _) => c.head == h == c.opt - over && h < tail <= c.tail
       case FetchOpt(over, _) => c.head == h == c.opt - over && h < c.tail
       case ReadTail(mine, over, _) => c.head == h == mine - over && h < c.tail
       case Claim(_) => c.head == h
       case Have(i) => i == h
       case _ => false
  }

  lemma HeadingStep<T>(s: State<T>, t: nat, h: nat)
    requires Inv(s) && t < |s.jobs| && Heading(s.c, t, h)
    ensures var s' := Next(s, Dequeue(t));
      && s'.enq == s.enq && h < |s.enq| && t < |s'.c.pcs|
      && (if s'.c.pcs[t].DIdle? then Output(s, Dequeue(t)) == [Returned(t, h, s.enq[h])]
          else Heading(s'.c, t, h) && Output(s, Dequeue(t)) == [])
  {
    hide Inv, JobInRange;
    StepKeepsInv(s, Dequeue(t));
    HeadInEnqueued(s);
    DequeuerLeaves(s, t);
    if s.c.pcs[t].Have? {
      if s.jobs[t].JDone? { DoneFacts(s, t); } else { KeepsJob(s, t); }
    }
    HeldIsEnqueued(s, t);
  }

  lemma KeepsJob<T>(s: State<T>, t: nat)
    requires JobInRange(s, t) && s.c.pcs[t].Have? && |s.jobs| == |s.c.pcs| && !s.jobs[t].JDone?
    ensures DequeueStep(s, t).c == s.c
  {
    hide At, Pos;
  }

  lemma HeldIsEnqueued<T>(s: State<T>, t: nat)
    requires Inv(s) && t < |s.jobs| == |s.c.pcs|
    ensures s.c.pcs[t].Have? ==> s.c.pcs[t].i < |s.enq|
    ensures s.c.tail <= |s.enq|
    ensures s.c.pcs[t].Claim? ==> s.c.head < s.c.tail
  {
    TailBound(s);
    if s.c.pcs[t].Have? { BlockFacts(s, t); }
    if s.c.pcs[t].Claim? { C.ClaimedIndex(s.c, t); }
  }

  lemma {:induction false} HeadingArrives<T>(s: State<T>, t: nat, h: nat) returns (n: nat)
    requires Inv(s) && t < |s.jobs| == |s.c.pcs| && Heading(s.c, t, h)
    ensures h < |s.enq| && EndsDequeue(s, Alone(t, n), t) && Trace(s, Alone(t, n)) == [Returned(t, h, s.enq[h])]
    decreases DequeuerRank(s.c.pcs[t], s.jobs[t])
  {
    hide Inv, Step, Heading, DequeuerRank, Output;
    var s' := Next(s, Dequeue(t));
    HeadingStep(s, t, h);
    NotIdle(s, t, h);
    DequeuerProgress(s, Dequeue(t), t);
    if s'.c.pcs[t].DIdle? {
      n := 1;
      assert Alone<T>(t, 1)[1..] == [];
    } else {
      n := HeadingArrives(s', t, h);
      n := n + 1;
      assert Alone<T>(t, n)[1..] == Alone(t, n - 1);
    }
  }

  lemma NotIdle<T>(s: State<T>, t: nat, h: nat)
    requires t < |s.c.pcs| && Heading(s.c, t, h)
    ensures !s.c.pcs[t].DIdle?
  {
  }

  /** A dequeue that runs while no attempt is in flight, whatever the others have claimed and wherever the enqueuer
      stands, returns the element at the head, if one is published, and else refuses. */
  lemma LoneDequeue<T>(s: State<T>, t: nat) returns (n: nat)
    requires Inv(s) && t < |s.jobs| == |s.c.pcs| && s.c.pcs[t].DIdle?
    requires forall u :: 0 <= u < |s.c.pcs| ==> C.InFlight(s.c.pcs[u]) == 0
    ensures EndsDequeue(s, Alone(t, n), t)
    ensures s.c.head < s.c.tail ==>
      s.c.head < |s.enq| && Trace(s, Alone(t, n)) == [Returned(t, s.c.head, s.enq[s.c.head])]
    ensures s.c.head == s.c.tail ==> Trace(s, Alone(t, n)) == []
  {
    hide Inv, C.Inv;
    CountsInv(s);
    C.QuiescentCounts(s.c);
    var s1 := Next(s, Dequeue(t));
    StartsLone(s, t);
    if s.c.head < s.c.tail {
      n := HeadingArrives(s1, t, s.c.head);
      n := n + 1;
      assert Alone<T>(t, n)[1..] == Alone(t, n - 1);
    } else {
      n := 3;
      FindsNone(s, s1, t);
    }
  }

  lemma StartsLone<T>(s: State<T>, t: nat)
    requires Inv(s) && t < |s.jobs| == |s.c.pcs| && s.c.pcs[t].DIdle?
    ensures var s1 := Next(s, Dequeue(t));
      && |s1.jobs| == |s1.c.pcs| && s1.enq == s.enq && s1.c == s.c.(pcs := s1.c.pcs)
      && s1.c.pcs[t] == C.ReadOver(s.c.tail)
  {
    hide Inv;
    HeadInEnqueued(Next(s, Dequeue(t)));
  }

  lemma FindsNone<T>(s: State<T>, s1: State<T>, t: nat)
    requires Inv(s) && t < |s.jobs| == |s.c.pcs| && s.c.pcs[t].DIdle? && s1 == Next(s, Dequeue(t))
    requires s.c.opt - s.c.over == s.c.head == s.c.tail
    requires |s1.jobs| == |s1.c.pcs| && s1.c == s.c.(pcs := s1.c.pcs) && s1.c.pcs[t] == C.ReadOver(s.c.tail)
    ensures EndsDequeue(s, Alone(t, 3), t) && Trace(s, Alone(t, 3)) == []
  {
    hide Inv;
    var s2 := Next(s1, Dequeue(t));
    var s3 := Next(s2, Dequeue(t));
    HeadInEnqueued(s2);
    HeadInEnqueued(s3);
    assert s2.c.pcs[t].ReadOpt? && s3.c.pcs[t].DIdle?;
    var run, two, one := Alone<T>(t, 3), Alone<T>(t, 2), Alone<T>(t, 1);
    assert run[1..] == two && two[1..] == one && one[1..] == [];
    hide Next, Step;
    assert Trace(s3, []) == [];
    assert Trace(s2, one) == [] && Trace(s1, two) == [];
    assert EndsDequeue(s2, one, t) && EndsDequeue(s1, two, t);
  }
}
