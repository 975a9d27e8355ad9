/** What one call of get_or_add_implicit_producer does, from the step that starts it to the one that ends it,
    whatever the other threads do in between; and that a call that runs alone succeeds. */
module ProducerHashCalls {
  import opened ProducerHash

  ghost predicate Runnable(run: seq<Choice>, threads: nat) { forall i :: 0 <= i < |run| ==> run[i].t < threads }

  /** The state after one step. */
  ghost function Next(s: State, c: Choice): (r: State)
    requires Inv(s) && c.t < |s.pcs|
    ensures Inv(r) && |r.pcs| == |s.pcs|
  {
    StepKeepsInv(s, c.t, c.ok);
    Step(s, c.t, c.ok)
  }

  /** The run ends with the first of its steps that leaves thread t idle. */
  ghost predicate EndsCall(s: State, run: seq<Choice>, t: nat)
    requires Inv(s) && Runnable(run, |s.pcs|) && t < |s.pcs|
    decreases |run|
  {
    && run != []
    && var s' := Next(s, run[0]);
       if |run| == 1 then s'.pcs[t].Idle? else !s'.pcs[t].Idle? && EndsCall(s', run[1..], t)
  }

  /** The producer that thread t's call answers with at its last step, or none. */
  ghost function LastAnswer(s: State, run: seq<Choice>, t: nat): int
    requires Inv(s) && Runnable(run, |s.pcs|) && t < |s.pcs| && run != []
    decreases |run|
  {
    if |run| == 1 then if s.pcs[t].Done? then s.pcs[t].v else NONE
    else LastAnswer(Next(s, run[0]), run[1..], t)
  }

  /** The step is an allocation of thread t's that fails: of a table or of a producer. */
  predicate AllocationFails(s: State, c: Choice, t: nat) {
    c == Choice(t, false) && t < |s.pcs| && (s.pcs[t].Alloc? || s.pcs[t].Create?)
  }

  ghost predicate SomeAllocationFails(s: State, run: seq<Choice>, t: nat)
    requires Inv(s) && Runnable(run, |s.pcs|)
    decreases |run|
  {
    run != [] && (AllocationFails(s, run[0], t) || SomeAllocationFails(Next(s, run[0]), run[1..], t))
  }

  predicate GivingUp(p: Pc) { p.AllocFail? || p.FailUnlock? || p.CreateFail? }

  /** Where a step of t's call may lead. */
  ghost predicate Leads(s: State, s': State, t: nat, ok: bool)
    requires t < |s.pcs|
  {
    && t < |s'.pcs| && (s'.pcs[t].Idle? ==> s.pcs[t].Done? || s.pcs[t].FailUnlock? || s.pcs[t].CreateFail?)
    && (GivingUp(s'.pcs[t]) ==> GivingUp(s.pcs[t]) || AllocationFails(s, Choice(t, ok), t))
    && (s.pcs[t].Idle? ==> !s'.pcs[t].Idle? && !GivingUp(s'.pcs[t]))
  }

  lemma ProbeLeads(s: State, t: nat, ok: bool)
    requires InRange(s, t) && Probing(s.pcs[t])
    ensures Leads(s, Step(s, t, ok), t, ok)
  {
    hide Put, Slot, Sized;
  }

  lemma CountLeads(s: State, t: nat, ok: bool)
    requires InRange(s, t) && !Probing(s.pcs[t])
    ensures Leads(s, Step(s, t, ok), t, ok)
  {
    hide Put, Slot, NewCapacity, EmptyTable, Without, TableOk, Limit;
  }

  lemma OwnStep(s: State, t: nat, ok: bool)
    requires InRange(s, t)
    ensures Leads(s, Step(s, t, ok), t, ok)
  {
    hide Step, Leads, Sized;
    if Probing(s.pcs[t]) { ProbeLeads(s, t, ok); } else { CountLeads(s, t, ok); }
  }

  lemma OtherStep(s: State, t: nat, u: nat, ok: bool)
    requires InRange(s, u) && t < |s.pcs| && u != t
    ensures Step(s, u, ok).pcs[t] == s.pcs[t]
  {
    hide Put, Slot, NewCapacity, EmptyTable, Without;
  }

  /** A thread that is done has a producer; one that gives up is not counted once it is idle again. */
  lemma LastStep(s: State, t: nat, ok: bool)
    requires Inv(s) && t < |s.pcs| && !s.pcs[t].Idle? && Next(s, Choice(t, ok)).pcs[t].Idle?
    ensures var e := Next(s, Choice(t, ok));
      && t < |e.mine|
      && if s.pcs[t].Done? then e.mine[t] == s.pcs[t].v else GivingUp(s.pcs[t]) && e.mine[t] == NONE && t !in e.regs
  {
    hide Inv, Tables, Threads, Producers, Regs, Passed, Missed, Absent, Without;
    ThreadFacts(s, t);
    OwnStep(s, t, ok);
    if s.pcs[t].CreateFail? { UncountRegs(s, t, Idle); }
    if s.pcs[t].FailUnlock? { UncountedThread(s, t); }
  }

  lemma UncountedThread(s: State, t: nat)
    requires Inv(s) && t < |s.pcs| && s.pcs[t].FailUnlock?
    ensures s.mine[t] != NONE || t !in s.regs
  {
    hide Tables, Threads, Producers;
  }

  /** Thread t is in a table that is no older than number m. */
  ghost predicate Present(s: State, t: nat, m: nat) {
    exists j, x :: m <= j < |s.tables| && 0 <= x < |s.tables[j].keys| && s.tables[j].keys[x] == t
  }

  /** A call that works on a table no older than number m, and has put its thread there when it is done. */
  ghost predicate WorksOn(s: State, t: nat, m: nat)
    requires t < |s.pcs|
  {
    && m < |s.tables|
    && match s.pcs[t]
       case Probe(main, _, _) => m <= main
       case Move(main, _, _) => m <= main
       case MoveCas(main, _, _) => m <= main
       case Count(main) => m <= main
       case TryLock(main, _) => m <= main
       case Alloc(main, _) => m <= main
       case Unlock(main, _) => m <= main
       case Create(main, _) => m <= main
       case Insert(main, _, _) => m <= main
       case InsertCas(main, _, _) => m <= main
       case Done(_) => Present(s, t, m)
       case _ => true
  }

  /** No step takes a table away, or a thread out of one. */
  lemma TablesGrow(s: State, u: nat, ok: bool)
    requires InRange(s, u)
    ensures var s' := Step(s, u, ok);
      && |s.tables| <= |s'.tables|
      && forall j :: 0 <= j < |s.tables| ==> Gained(s.tables[j], s'.tables[j], u)
  {
    hide Slot, NewCapacity, EmptyTable, Without, Limit;
  }

  lemma StaysPresent(s: State, s': State, u: nat, t: nat, m: nat)
    requires |s.tables| <= |s'.tables| && forall j :: 0 <= j < |s.tables| ==> Gained(s.tables[j], s'.tables[j], u)
    requires Present(s, t, m)
    ensures Present(s', t, m)
  {
    var j, x :| m <= j < |s.tables| && 0 <= x < |s.tables[j].keys| && s.tables[j].keys[x] == t;
    assert Gained(s.tables[j], s'.tables[j], u);
    assert s'.tables[j].keys[x] == t;
  }

  lemma ProbeWorksOn(s: State, t: nat, ok: bool, m: nat)
    requires InRange(s, t) && WorksOn(s, t, m) && Probing(s.pcs[t])
    ensures WorksOn(Step(s, t, ok), t, m)
  {
    hide Limit;
    var p, s' := s.pcs[t], Step(s, t, ok);
    var x := Slot(s.hash[t], p.k, Cap(s.tables[if p.Probe? then p.tab else MainOf(p)]));
    if s'.pcs[t].Done? { assert s'.tables[MainOf(p)].keys[x] == t; }
  }

  lemma RestWorksOn(s: State, t: nat, ok: bool, m: nat)
    requires InRange(s, t) && WorksOn(s, t, m) && !Probing(s.pcs[t])
    ensures WorksOn(Step(s, t, ok), t, m)
  {
    hide Slot, NewCapacity, EmptyTable, Without, Limit, Present;
  }

  lemma StepWorksOn(s: State, c: Choice, t: nat, m: nat)
    requires Inv(s) && c.t < |s.pcs| && t < |s.pcs| && WorksOn(s, t, m)
    ensures WorksOn(Next(s, c), t, m)
  {
    hide Inv, Present, WorksOn, Step;
    StepKeepsInv(s, c.t, c.ok);
    if c.t != t {
      OtherWorksOn(s, c, t, m);
    } else if Probing(s.pcs[t]) {
      ProbeWorksOn(s, t, c.ok, m);
    } else {
      RestWorksOn(s, t, c.ok, m);
    }
  }

  lemma OtherWorksOn(s: State, c: Choice, t: nat, m: nat)
    requires InRange(s, c.t) && t < |s.pcs| && WorksOn(s, t, m) && c.t != t && |Step(s, c.t, c.ok).pcs| == |s.pcs|
    ensures WorksOn(Step(s, c.t, c.ok), t, m)
  {
    hide Present, Step, InRange;
    OtherStep(s, t, c.t, c.ok);
    TablesGrow(s, c.t, c.ok);
    if s.pcs[t].Done? { StaysPresent(s, Step(s, c.t, c.ok), c.t, t, m); }
  }

  lemma {:induction false} CallGoesOn(s: State, run: seq<Choice>, t: nat, m: nat)
    requires Inv(s) && Runnable(run, |s.pcs|) && t < |s.pcs| && EndsCall(s, run, t) && !s.pcs[t].Idle?
    requires WorksOn(s, t, m)
    ensures var e, p := Exec(s, run), LastAnswer(s, run, t);
      && t < |e.mine| && e.mine[t] == p
      && (p == NONE ==> t !in e.regs && (GivingUp(s.pcs[t]) || SomeAllocationFails(s, run, t)))
      && (p != NONE ==> Present(e, t, m))
    decreases |run|
  {
    hide Inv, Step, GivingUp, AllocationFails, WorksOn, Present;
    StepKeepsInv(s, run[0].t, run[0].ok);
    var s' := Next(s, run[0]);
    if run[0].t == t { OwnStep(s, t, run[0].ok); } else { OtherStep(s, t, run[0].t, run[0].ok); }
    if |run| == 1 {
      assert run[1..] == [];
      LastStep(s, t, run[0].ok);
      DoneIsOwn(s, t);
      if s.pcs[t].Done? { DonePresent(s, t, run[0].ok, m); }
    } else {
      StepWorksOn(s, run[0], t, m);
      CallGoesOn(s', run[1..], t, m);
    }
  }

  lemma DonePresent(s: State, t: nat, ok: bool, m: nat)
    requires Inv(s) && t < |s.pcs| && s.pcs[t].Done? && WorksOn(s, t, m)
    ensures Present(Next(s, Choice(t, ok)), t, m)
  {
    hide Inv, Present;
    StepKeepsInv(s, t, ok);
    TablesGrow(s, t, ok);
    StaysPresent(s, Next(s, Choice(t, ok)), t, t, m);
  }

  /** A call of thread t, whatever the others do meanwhile: it answers with the producer that is registered for t from
      then on, and t has an entry in the newest table there was at its start, or in a newer one; or it fails, leaving t
      neither registered nor counted, and that only if an allocation of its own has failed. A thread that was
      registered before gets its producer. */
  lemma CallAnswers(s: State, run: seq<Choice>, t: nat)
    requires Inv(s) && Runnable(run, |s.pcs|) && t < |s.pcs| && EndsCall(s, run, t)
    requires s.pcs[t].Idle? && run[0].t == t
    ensures 0 < |s.tables|
    ensures var e, p := Exec(s, run), LastAnswer(s, run, t);
      && t < |e.mine| == |s.mine| && e.mine[t] == p
      && (p == NONE ==> t !in e.regs && SomeAllocationFails(s, run, t))
      && (p != NONE ==> Present(e, t, |s.tables| - 1))
      && (s.mine[t] != NONE ==> p == s.mine[t])
  {
    hide Inv, Step, Present, WorksOn;
    StepKeepsInv(s, t, run[0].ok);
    OwnStep(s, t, run[0].ok);
    var s1 := Next(s, run[0]);
    StartsOn(s, t, run[0].ok);
    CallGoesOn(s1, run[1..], t, |s.tables| - 1);
    DoneIsOwn(s, t);
    DoneIsOwn(Exec(s, run), t);
    if s.mine[t] != NONE { KeepsProducer(s, run, t); }
  }

  lemma StartsOn(s: State, t: nat, ok: bool)
    requires Inv(s) && t < |s.pcs| && s.pcs[t].Idle?
    ensures 0 < |s.tables| && WorksOn(Next(s, Choice(t, ok)), t, |s.tables| - 1)
  {
    hide Inv;
    StepKeepsInv(s, t, ok);
  }

  // ---- a call alone -------------------------------------------------------------------------------

  /** n steps of thread t, in which every allocation succeeds, with everybody else standing still. */
  function Alone(t: nat, n: nat): (run: seq<Choice>)
    ensures |run| == n && forall i :: 0 <= i < n ==> run[i] == Choice(t, true)
  {
    if n == 0 then [] else [Choice(t, true)] + Alone(t, n - 1)
  }

  /** The resize lock is free, or t, counted now, would not need it to get past the others. */
  predicate Clear(s: State, t: nat)
    requires Sized(s) && t < |s.pcs|
  {
    !s.locked || s.mine[t] != NONE || s.count + 1 < Limit(Cap(s.tables[|s.tables| - 1]))
  }

  /** In a call that runs alone, with nothing in its way. */
  predicate Unhindered(s: State, t: nat)
    requires InRange(s, t)
  {
    match s.pcs[t]
    case LoadMain => Clear(s, t)
    case Probe(main, _, _) => Clear(s, t) && main == |s.tables| - 1
    case Count(main) => Clear(s, t) && main == |s.tables| - 1 && s.mine[t] == NONE
    case TryLock(main, n) => !s.locked || n < Limit(Cap(s.tables[main]))
    case Unlock(main, n) => n < Limit(Cap(s.tables[main]))
    case Wait(_) => false
    case p => !p.Idle? && !GivingUp(p)
  }

  function Phase(p: Pc): nat {
    match p
    case LoadMain => 11
    case Probe(_, _, _) => 10
    case Move(_, _, _) => 9
    case MoveCas(_, _, _) => 9
    case Count(_) => 8
    case TryLock(_, _) => 7
    case Reload(_) => 6
    case Alloc(_, _) => 5
    case Unlock(_, _) => 4
    case Create(_, _) => 3
    case Insert(_, _, _) => 2
    case InsertCas(_, _, _) => 2
    case Done(_) => 1
    case _ => 0
  }

  lemma ProbeUnhindered(s: State, t: nat)
    requires InRange(s, t) && Unhindered(s, t) && s.pcs[t].Probe? && InRange(ProbeStep(s, t), t)
    requires ProbeStep(s, t).pcs[t].Count? ==> s.mine[t] == NONE
    ensures var s' := ProbeStep(s, t);
      && Unhindered(s', t) && s'.tables == s.tables && !s'.pcs[t].Idle?
      && (if s'.pcs[t].Probe? then Phase(s'.pcs[t]) == Phase(s.pcs[t]) else Phase(s'.pcs[t]) < Phase(s.pcs[t]))
  {
    hide Put, Slot, Limit, Key, Sized;
  }

  lemma FillUnhindered(s: State, t: nat)
    requires InRange(s, t) && Probing(s.pcs[t]) && !s.pcs[t].Probe? && InRange(Step(s, t, true), t)
    ensures var s' := Step(s, t, true);
      && Unhindered(s', t) && !s'.pcs[t].Idle?
      && (Phase(s'.pcs[t]) < Phase(s.pcs[t])
          || (Probing(s'.pcs[t]) && Phase(s'.pcs[t]) == Phase(s.pcs[t]) && s'.tables == s.tables))
  {
    hide Put, Slot, Limit, Key, Sized;
  }

  lemma CountUnhindered(s: State, t: nat)
    requires InRange(s, t) && Unhindered(s, t) && (s.pcs[t].LoadMain? || s.pcs[t].Count?)
    requires InRange(Step(s, t, true), t)
    ensures var s' := Step(s, t, true); Phase(s'.pcs[t]) < Phase(s.pcs[t]) && Unhindered(s', t) && !s'.pcs[t].Idle?
  {
  }

  lemma LockUnhindered(s: State, t: nat)
    requires InRange(s, t) && Unhindered(s, t) && (s.pcs[t].TryLock? || s.pcs[t].Reload?)
    requires InRange(Step(s, t, true), t)
    ensures var s' := Step(s, t, true); Phase(s'.pcs[t]) < Phase(s.pcs[t]) && Unhindered(s', t) && !s'.pcs[t].Idle?
  {
  }

  lemma CreateUnhindered(s: State, t: nat)
    requires InRange(s, t) && Unhindered(s, t) && (s.pcs[t].Unlock? || s.pcs[t].Create?)
    requires InRange(Step(s, t, true), t)
    ensures var s' := Step(s, t, true); Phase(s'.pcs[t]) < Phase(s.pcs[t]) && Unhindered(s', t) && !s'.pcs[t].Idle?
  {
  }

  lemma AllocUnhindered(s: State, t: nat)
    requires InRange(s, t) && s.pcs[t].Alloc? && InRange(AllocStep(s, t, true), t)
    ensures var s' := AllocStep(s, t, true);
      Phase(s'.pcs[t]) < Phase(s.pcs[t]) && Unhindered(s', t) && !s'.pcs[t].Idle?
  {
    hide Sized;
  }

  lemma UnhinderedStep(s: State, t: nat)
    requires Inv(s) && t < |s.pcs| && InRange(s, t) && Unhindered(s, t)
    ensures var s' := Next(s, Choice(t, true));
      && InRange(s', t)
      && (if s.pcs[t].Done? then s'.pcs[t].Idle? else !s'.pcs[t].Idle? && Unhindered(s', t))
      && (Phase(s'.pcs[t]) < Phase(s.pcs[t])
          || (Phase(s'.pcs[t]) == Phase(s.pcs[t]) && Closer(s, s.pcs[t], s'.pcs[t]) && s'.tables == s.tables))
  {
    hide Inv, Unhindered, Closer, InRange, Phase, PcOk;
    var s' := Next(s, Choice(t, true));
    StepKeepsInv(s, t, true);
    StepKeepsInv(s', t, true);
    ThreadFacts(s', t);
    var p := s.pcs[t];
    if Probing(p) { ProbingEnds(s, t, true); }
    if p.Probe? {
      CountMeansNone(s', t);
      ProbeUnhindered(s, t);
    } else if Probing(p) {
      FillUnhindered(s, t);
    } else if p.Alloc? {
      AllocUnhindered(s, t);
    } else if p.Done? {
      DonePhase(s, t);
    } else if p.LoadMain? || p.Count? {
      CountUnhindered(s, t);
    } else if p.TryLock? || p.Reload? {
      LockUnhindered(s, t);
    } else {
      assert p.Unlock? || p.Create? by { Places(s, t); }
      CreateUnhindered(s, t);
    }
  }

  lemma Places(s: State, t: nat)
    requires InRange(s, t) && Unhindered(s, t)
    ensures var p := s.pcs[t];
      || Probing(p) || p.LoadMain? || p.Count? || p.TryLock? || p.Reload? || p.Alloc? || p.Unlock? || p.Create?
      || p.Done?
  {
  }

  lemma CountMeansNone(s: State, t: nat)
    requires Inv(s) && t < |s.pcs|
    ensures s.pcs[t].Count? ==> s.mine[t] == NONE
  {
    hide Inv, Tables, Threads, Producers, Regs, Passed, Missed, Absent;
    ThreadFacts(s, t);
  }

  lemma DonePhase(s: State, t: nat)
    requires InRange(s, t) && s.pcs[t].Done?
    ensures var s' := Step(s, t, true); t < |s'.pcs| && s'.pcs[t].Idle? && Phase(s'.pcs[t]) < Phase(s.pcs[t])
  {
  }

  lemma CloserLeft(s: State, s': State, p: Pc, p': Pc)
    requires Sized(s) && Sized(s') && MainOf(p) < |s.tables| && (p.Probe? ==> p.tab < |s.tables|)
    requires Closer(s, p, p') && s'.tables == s.tables
    ensures MainOf(p') < |s'.tables| && (p'.Probe? ==> p'.tab < |s'.tables|)
    ensures Left(s', p').0 <= Left(s, p).0 && 0 <= Left(s', p').1
    ensures Left(s', p').0 == Left(s, p).0 ==> Left(s', p').1 < Left(s, p).1
  {
  }

  lemma {:induction false} UnhinderedEnds(s: State, t: nat) returns (n: nat)
    requires Inv(s) && t < |s.pcs| && InRange(s, t) && Unhindered(s, t)
    ensures EndsCall(s, Alone(t, n), t) && !SomeAllocationFails(s, Alone(t, n), t)
    decreases Phase(s.pcs[t]), Left(s, s.pcs[t]).0, Left(s, s.pcs[t]).1
  {
    hide Inv, Unhindered, Step, Phase, Left, Closer, Sized;
    UnhinderedStep(s, t);
    var s' := Next(s, Choice(t, true));
    if s'.pcs[t].Idle? {
      n := 1;
      assert Alone(t, 1)[1..] == [];
    } else {
      if Phase(s'.pcs[t]) == Phase(s.pcs[t]) { CloserLeft(s, s', s.pcs[t], s'.pcs[t]); }
      n := UnhinderedEnds(s', t);
      n := n + 1;
      assert Alone(t, n)[1..] == Alone(t, n - 1);
    }
  }

  /** A call that runs alone, wherever the others stand still, succeeds if no allocation fails, provided that the
      resize lock is free, or that the thread is registered, or that it would be counted early enough for the table
      there is. */
  lemma LoneCall(s: State, t: nat) returns (n: nat)
    requires Inv(s) && t < |s.pcs| && s.pcs[t].Idle? && InRange(s, t) && Clear(s, t)
    ensures 0 < n && EndsCall(s, Alone(t, n), t)
    ensures var e, p := Exec(s, Alone(t, n)), LastAnswer(s, Alone(t, n), t);
      && p != NONE && t < |e.mine| == |s.mine| && e.mine[t] == p
      && (s.mine[t] != NONE ==> p == s.mine[t])
  {
    hide Inv, Unhindered;
    StepKeepsInv(s, t, true);
    var s1 := Next(s, Choice(t, true));
    Starts(s, t);
    n := UnhinderedEnds(s1, t);
    n := n + 1;
    assert Alone(t, n)[1..] == Alone(t, n - 1);
    hide Step, Clear;
    CallAnswers(s, Alone(t, n), t);
  }

  lemma Starts(s: State, t: nat)
    requires Inv(s) && t < |s.pcs| && s.pcs[t].Idle? && InRange(s, t) && Clear(s, t)
    ensures var s1 := Next(s, Choice(t, true));
      !s1.pcs[t].Idle? && InRange(s1, t) && Unhindered(s1, t) && !AllocationFails(s, Choice(t, true), t)
  {
    hide Inv;
  }
}
