/** What one call on the free list does, from the step that starts it to the one that ends it, whatever the other
    threads do in between; and what it does alone. */
module FreeListCalls {
  import opened FreeList

  /** The state after one step. */
  ghost function Next(s: State, c: Choice): (r: State)
    requires Inv(s) && c.t < |s.pcs|
    ensures Inv(r) && |r.pcs| == |s.pcs|
  {
    StepKeepsInv(s, c.t, c.act);
    Step(s, c.t, c.act)
  }

  /** The run ends with the first of its steps that leaves thread t idle. */
  ghost predicate EndsCall(s: State, run: seq<Choice>, t: nat)
    requires Inv(s) && Runnable(run, |s.pcs|) && t < |s.pcs|
    decreases |run|
  {
    && run != []
    && var s' := Next(s, run[0]);
       if |run| == 1 then s'.pcs[t].Idle? else !s'.pcs[t].Idle? && EndsCall(s', run[1..], t)
  }

  // ---- what try_get answers -----------------------------------------------------------------------

  datatype Answer = NoAnswer | Got(n: nat) | Nothing

  /** In a call of try_get; one that puts a node back on the list on its way counts too. */
  predicate Getting(p: Pc) {
    match p
    case Idle => false
    case AddFetch(_) => false
    case KLoad(_, k) => k.Retry?
    case KNext(_, _, k) => k.Retry?
    case KRefs(_, _, k) => k.Retry?
    case KCas(_, _, k) => k.Retry?
    case KFail(_, _, k) => k.Retry?
    case _ => true
  }

  /** What a step answers that ends a call of try_get: the node taken, or null. */
  ghost function AnswerOf(s: State, c: Choice): Answer
    requires Inv(s) && c.t < |s.pcs|
  {
    if !Getting(s.pcs[c.t]) || !Next(s, c).pcs[c.t].Idle? then NoAnswer
    else if s.pcs[c.t].GSub2? then Got(s.pcs[c.t].n)
    else Nothing
  }

  /** What the last step of a run answers. */
  ghost function LastAnswer(s: State, run: seq<Choice>): Answer
    requires Inv(s) && Runnable(run, |s.pcs|) && run != []
    decreases |run|
  {
    if |run| == 1 then AnswerOf(s, run[0]) else LastAnswer(Next(s, run[0]), run[1..])
  }

  /** Thread t loads the head, by itself or in a CAS that fails, and finds the list empty. */
  predicate SeesEmpty(s: State, c: Choice, t: nat) {
    c.t == t < |s.pcs| && (s.pcs[t].GLoad? || s.pcs[t].GHead?) && s.head == NULL && s.list == []
  }

  /** Some step of the run does. */
  ghost predicate SomeSeesEmpty(s: State, run: seq<Choice>, t: nat)
    requires Inv(s) && Runnable(run, |s.pcs|)
    decreases |run|
  {
    run != [] && (SeesEmpty(s, run[0], t) || SomeSeesEmpty(Next(s, run[0]), run[1..], t))
  }

  /** The head it will go on with is null. */
  predicate HeadedForNothing(p: Pc) {
    match p
    case GSub1(_, h) => h < 0
    case KLoad(_, k) => k.Retry? && k.head < 0
    case KNext(_, _, k) => k.Retry? && k.head < 0
    case KRefs(_, _, k) => k.Retry? && k.head < 0
    case KCas(_, _, k) => k.Retry? && k.head < 0
    case KFail(_, _, k) => k.Retry? && k.head < 0
    case _ => false
  }

  lemma OwnGetStep(s: State, t: nat, a: Act)
    requires InRange(s, t) && Getting(s.pcs[t])
    ensures var s' := Step(s, t, a);
      && (!s'.pcs[t].Idle? ==> Getting(s'.pcs[t]))
      && (s'.pcs[t].Idle? && !s.pcs[t].GSub2? ==> HeadedForNothing(s.pcs[t]) || (s.pcs[t].GLoad? && s.head < 0))
      && (HeadedForNothing(s'.pcs[t]) ==> HeadedForNothing(s.pcs[t]) || (s.pcs[t].GHead? && s.head < 0))
      && (s'.pcs[t].Idle? && s.pcs[t].GSub2? ==>
            s.pcs[t].n < |s'.status| == |s.status| && s'.status[s.pcs[t].n].Owned? && s'.list == s.list)
  {
  }

  lemma OtherStep(s: State, t: nat, u: nat, a: Act)
    requires InRange(s, u) && t < |s.pcs| && u != t
    ensures Step(s, u, a).pcs[t] == s.pcs[t]
  {
  }

  lemma NullMeansEmpty(s: State)
    requires Inv(s)
    ensures s.head < 0 ==> s.head == NULL && s.list == []
  {
    hide Nodes, Threads;
  }

  lemma {:induction false} GettingAnswers(s: State, run: seq<Choice>, t: nat)
    requires Inv(s) && Runnable(run, |s.pcs|) && t < |s.pcs| && EndsCall(s, run, t) && Getting(s.pcs[t])
    ensures var e := Exec(s, run);
      match LastAnswer(s, run)
      case Got(n) => n < |e.status| && e.status[n].Owned? && n !in e.list
      case Nothing => SomeSeesEmpty(s, run, t) || HeadedForNothing(s.pcs[t])
      case NoAnswer => false
    decreases |run|
  {
    hide Inv, Step, Getting, HeadedForNothing;
    StepKeepsInv(s, run[0].t, run[0].act);
    NullMeansEmpty(s);
    if run[0].t == t { OwnGetStep(s, t, run[0].act); } else { OtherStep(s, t, run[0].t, run[0].act); }
    var s' := Next(s, run[0]);
    if |run| == 1 {
      assert run[1..] == [];
      NotIdle(s.pcs[t]);
      if s.pcs[t].GSub2? { TakenOff(s', s.pcs[t].n); }
    } else {
      GettingAnswers(s', run[1..], t);
    }
  }

  lemma NotIdle(p: Pc)
    requires Getting(p)
    ensures !p.Idle?
  {
  }

  lemma TakenOff(s: State, n: nat)
    requires Inv(s) && n < |s.status| && s.status[n].Owned?
    ensures n !in s.list
  {
    hide Nodes, Threads;
  }

  /** A call of try_get, whatever the others do meanwhile: it ends with a node that is its caller's now, and on the
      list no more, or with null, and that only if a step of its own has found the list empty. */
  lemma GetAnswers(s: State, run: seq<Choice>, t: nat)
    requires Inv(s) && Runnable(run, |s.pcs|) && t < |s.pcs| && EndsCall(s, run, t)
    requires s.pcs[t].Idle? && run[0] == Choice(t, TryGet)
    ensures var e := Exec(s, run);
      match LastAnswer(s, run)
      case Got(n) => n < |e.status| && e.status[n].Owned? && n !in e.list
      case Nothing => SomeSeesEmpty(s, run, t)
      case NoAnswer => false
  {
    hide Inv;
    StepKeepsInv(s, t, TryGet);
    GettingAnswers(Next(s, run[0]), run[1..], t);
  }

  // ---- what add comes to --------------------------------------------------------------------------

  /** The step hands node n to a caller. */
  predicate HandsOut(s: State, c: Choice, n: nat) { c.t < |s.pcs| && s.pcs[c.t] == GSub2(n) }

  ghost predicate NeverHandsOut(s: State, run: seq<Choice>, n: nat)
    requires Inv(s) && Runnable(run, |s.pcs|)
    decreases |run|
  {
    run != [] ==> !HandsOut(s, run[0], n) && NeverHandsOut(Next(s, run[0]), run[1..], n)
  }

  lemma OwnedOnlyByHandOut(s: State, c: Choice, n: nat)
    requires InRange(s, c.t) && n < |s.status| && !s.status[n].Owned?
    ensures var s' := Step(s, c.t, c.act);
      |s'.status| == |s.status| && (s'.status[n].Owned? ==> HandsOut(s, c, n))
  {
  }

  lemma {:induction false} StaysGiven(s: State, run: seq<Choice>, n: nat)
    requires Inv(s) && Runnable(run, |s.pcs|) && NeverHandsOut(s, run, n) && n < |s.status| && !s.status[n].Owned?
    ensures n < |Exec(s, run).status| && !Exec(s, run).status[n].Owned?
    decreases |run|
  {
    if run != [] {
      hide Inv, Step;
      StepKeepsInv(s, run[0].t, run[0].act);
      OwnedOnlyByHandOut(s, run[0], n);
      StaysGiven(Next(s, run[0]), run[1..], n);
    }
  }

  /** No node is lost: one that its owner adds is on the list, once and with a count of 1, whenever no call is in
      progress afterwards, unless a try_get has handed it out. */
  lemma AddArrives(s: State, t: nat, n: nat, run: seq<Choice>)
    requires Inv(s) && t < |s.pcs| && s.pcs[t].Idle? && n < |s.status| && s.status[n].Owned?
    requires Runnable(run, |s.pcs|) && NeverHandsOut(Next(s, Choice(t, Add(n))), run, n)
    ensures var e := Exec(Next(s, Choice(t, Add(n))), run);
      (forall u :: 0 <= u < |e.pcs| ==> e.pcs[u].Idle?) ==>
        n < |e.refs| && OnListOnce(e, n) && e.refs[n] == 1 && e.status[n].OnList?
  {
    hide Inv, OnListOnce;
    var s1 := Next(s, Choice(t, Add(n)));
    StepKeepsInv(s, t, Add(n));
    StaysGiven(s1, run, n);
    var e := Exec(s1, run);
    SameSize(e);
    if forall u :: 0 <= u < |e.pcs| ==> e.pcs[u].Idle? {
      Quiescent(e, n);
      Partition(e, n);
    }
  }

  lemma SameSize(s: State)
    requires Inv(s)
    ensures |s.refs| == |s.next| == |s.status|
  {
    hide Nodes, Threads, Chain;
  }

  // ---- a thread alone -----------------------------------------------------------------------------

  /** n steps of thread t, with everybody else standing still. */
  function Alone(t: nat, n: nat): (run: seq<Choice>)
    ensures |run| == n && forall i :: 0 <= i < n ==> run[i] == Choice(t, TryGet)
  {
    if n == 0 then [] else [Choice(t, TryGet)] + Alone(t, n - 1)
  }

  predicate Listed(s: State, n: int) { 0 <= n < |s.status| && s.status[n].OnList? }

  /** How many steps a thread going for node n has left, if it were `steps` to take it: more if it will find that n
      is not the head, and more still if it may then have to put n back on the list. */
  function GoingRank(s: State, n: nat, steps: nat): nat {
    if s.head == n then steps else if Listed(s, n) then steps + 5 else steps + 14
  }

  /** The same in the loop that puts a node on the list, having loaded h as the head: then a try_get goes on. */
  function AddingRank(s: State, h: int, k: Cont, steps: nat): nat {
    steps + (if s.head == h then 0 else 4) + if k.Retry? && 0 <= k.head && !Listed(s, k.head) then 19 else 10
  }

  function AloneRank(s: State, t: nat): nat
    requires InRange(s, t)
  {
    match s.pcs[t]
    case Idle => 0
    case AddFetch(_) => 15
    case KLoad(_, k) => AddingRank(s, s.head, k, 4)
    case KNext(_, h, k) => AddingRank(s, h, k, 3)
    case KRefs(_, h, k) => AddingRank(s, h, k, 2)
    case KCas(_, h, k) => AddingRank(s, h, k, 1)
    case KFail(_, h, k) => AddingRank(s, h, k, 4)
    case GLoad => 6
    case GRefs(n) => if s.refs[n] % FLAG == 0 then 7 else GoingRank(s, n, 5)
    case GInc(n, r) => if s.refs[n] != r then 7 else GoingRank(s, n, 4)
    case GNext(n) => GoingRank(s, n, 3)
    case GHead(n, _) => GoingRank(s, n, 2)
    case GSub2(_) => 1
    case GSub1(n, h) => if h == s.head && Listed(s, n) then 6 else if h < 0 || Listed(s, h) then 15 else 24
  }

  lemma WordOnList(s: State, t: nat)
    requires Inv(s) && t < |s.pcs|
    ensures InRange(s, t) && HeadOk(s.head, |s.refs|) && (0 <= s.head ==> Listed(s, s.head))
    ensures forall n :: Listed(s, n) ==> n < |s.refs| && s.refs[n] % FLAG != 0 && s.refs[n] < FLAG
    ensures ThreadOk(s.pcs[t], t, s.next, s.status)
    ensures s.pcs[t].GSub1? && Listed(s, s.pcs[t].n) ==> 2 <= s.refs[s.pcs[t].n] < FLAG
  {
    assert ThreadOk(s.pcs[t], t, s.next, s.status);
    if s.pcs[t].GSub1? {
      HolderCounts(s.pcs, t, s.pcs[t].n);
      assert NodeOk(s.refs, s.pcs, s.status, s.pcs[t].n);
    }
    forall n | Listed(s, n) ensures n < |s.refs| && s.refs[n] % FLAG != 0 && s.refs[n] < FLAG {
      assert NodeOk(s.refs, s.pcs, s.status, n);
      HoldersBound(s.pcs, n);
    }
  }

  lemma AddFalls(s: State, t: nat, a: Act)
    requires InRange(s, t) && s.head < |s.refs| && (0 <= s.head ==> Listed(s, s.head))
    requires forall n :: Listed(s, n) ==> s.refs[n] % FLAG != 0
    requires ThreadOk(s.pcs[t], t, s.next, s.status)
    requires var p := s.pcs[t]; p.AddFetch? || p.KLoad? || p.KNext? || p.KRefs? || p.KFail?
    ensures InRange(Step(s, t, a), t) && AloneRank(Step(s, t, a), t) < AloneRank(s, t)
  {
  }

  lemma CasFalls(s: State, t: nat, a: Act)
    requires InRange(s, t) && s.head < |s.refs| && (0 <= s.head ==> Listed(s, s.head)) && s.pcs[t].KCas?
    requires ThreadOk(s.pcs[t], t, s.next, s.status)
    ensures InRange(Step(s, t, a), t) && AloneRank(Step(s, t, a), t) < AloneRank(s, t)
  {
  }

  lemma GetFalls(s: State, t: nat, a: Act)
    requires InRange(s, t) && s.head < |s.refs| && (0 <= s.head ==> Listed(s, s.head))
    requires forall n :: Listed(s, n) ==> n < |s.refs| && s.refs[n] % FLAG != 0 && s.refs[n] < FLAG
    requires ThreadOk(s.pcs[t], t, s.next, s.status)
    requires s.pcs[t].GSub1? && Listed(s, s.pcs[t].n) ==> 2 <= s.refs[s.pcs[t].n] < FLAG
    requires var p := s.pcs[t]; p.GLoad? || p.GRefs? || p.GInc? || p.GNext? || p.GHead? || p.GSub2? || p.GSub1?
    ensures InRange(Step(s, t, a), t) && AloneRank(Step(s, t, a), t) < AloneRank(s, t)
  {
  }

  /** Each step of a thread that runs alone brings its call closer to its end. */
  lemma AloneFalls(s: State, t: nat, a: Act)
    requires Inv(s) && t < |s.pcs| && !s.pcs[t].Idle?
    ensures InRange(s, t)
    ensures InRange(Step(s, t, a), t) && AloneRank(Step(s, t, a), t) < AloneRank(s, t)
  {
    hide Inv, Listed, AloneRank, Step;
    WordOnList(s, t);
    var p := s.pcs[t];
    if p.KCas? {
      CasFalls(s, t, a);
    } else if p.AddFetch? || p.KLoad? || p.KNext? || p.KRefs? || p.KFail? {
      AddFalls(s, t, a);
    } else {
      GetFalls(s, t, a);
    }
  }

  /** Any call, wherever the others stand still, ends when its thread runs alone, within 27 steps. */
  lemma {:induction false} AloneEnds(s: State, t: nat) returns (n: nat)
    requires Inv(s) && t < |s.pcs| && !s.pcs[t].Idle?
    ensures InRange(s, t) && n <= AloneRank(s, t) <= 27 && EndsCall(s, Alone(t, n), t)
    decreases AloneRank(s, t)
  {
    hide Inv, Step, AloneRank;
    AloneFalls(s, t, TryGet);
    AtMost(s, t);
    var s' := Next(s, Choice(t, TryGet));
    if s'.pcs[t].Idle? {
      n := 1;
    } else {
      n := AloneEnds(s', t);
      n := n + 1;
      assert Alone(t, n)[1..] == Alone(t, n - 1);
    }
  }

  lemma AtMost(s: State, t: nat)
    requires InRange(s, t)
    ensures AloneRank(s, t) <= 27
  {
  }

  /** On its way to taking node n, the head. */
  ghost predicate Takes(s: State, t: nat, n: nat) {
    && t < |s.pcs|
    && match s.pcs[t]
       case GLoad => s.head == n
       case GRefs(m) => m == n == s.head
       case GInc(m, r) => m == n == s.head && n < |s.refs| && s.refs[n] == r
       case GNext(m) => m == n == s.head
       case GHead(m, _) => m == n == s.head
       case _ => false
  }

  lemma TakesStep(s: State, t: nat, n: nat)
    requires Inv(s) && Takes(s, t, n)
    ensures var s' := Next(s, Choice(t, TryGet));
      && s.list != [] && s.list[0] == n && t < |s'.pcs| && !s.pcs[t].Idle? && !s'.pcs[t].Idle?
      && if s.pcs[t].GHead? then s'.pcs[t] == GSub2(n) && s'.list == s.list[1..]
         else Takes(s', t, n) && s'.list == s.list
  {
    hide Nodes, Threads, Holders, Inv;
    WordOnList(s, t);
    HeadListed(s);
    assert Listed(s, n);
  }

  lemma HeadListed(s: State)
    requires Inv(s)
    ensures if s.list == [] then s.head == NULL else s.head == s.list[0]
    ensures s.list != [] ==> Listed(s, s.head)
  {
    hide Nodes, Threads;
  }

  lemma {:induction false} TakesIt(s: State, t: nat, n: nat) returns (k: nat)
    requires Inv(s) && Takes(s, t, n)
    ensures EndsCall(s, Alone(t, k), t) && 0 < k && LastAnswer(s, Alone(t, k)) == Got(n)
    ensures s.list != [] && s.list[0] == n
    ensures var e := Exec(s, Alone(t, k)); e.list == s.list[1..] && n < |e.status| && e.status[n].Owned?
    decreases InRange(s, t), if InRange(s, t) then AloneRank(s, t) else 0
  {
    hide Inv, Step, Takes, AloneRank, Listed;
    TakesStep(s, t, n);
    AloneFalls(s, t, TryGet);
    var s' := Next(s, Choice(t, TryGet));
    if s.pcs[t].GHead? {
      k := 2;
      Drops(s', t, n);
      assert Alone(t, 2)[1..] == Alone(t, 1) && Alone(t, 1)[1..] == [];
    } else {
      k := TakesIt(s', t, n);
      k := k + 1;
      assert Alone(t, k)[1..] == Alone(t, k - 1);
    }
  }

  lemma Drops(s: State, t: nat, n: nat)
    requires Inv(s) && t < |s.pcs| && s.pcs[t] == GSub2(n)
    ensures var e := Next(s, Choice(t, TryGet));
      && EndsCall(s, Alone(t, 1), t) && LastAnswer(s, Alone(t, 1)) == Got(n) && Exec(s, Alone(t, 1)) == e
      && e.list == s.list && n < |e.status| && e.status[n].Owned?
  {
    hide Inv;
    assert Alone(t, 1)[1..] == [];
    WordOnList(s, t);
    SameSize(s);
  }

  /** A try_get that runs alone, wherever the others stand still, ends with the first node of the list and leaves the
      rest, or, from an empty list, with null. */
  lemma LoneGet(s: State, t: nat) returns (k: nat)
    requires Inv(s) && t < |s.pcs| && s.pcs[t].Idle?
    ensures 0 < k && EndsCall(s, Alone(t, k), t)
    ensures var e := Exec(s, Alone(t, k));
      if s.list == [] then LastAnswer(s, Alone(t, k)) == Nothing && e == s
      else
        && LastAnswer(s, Alone(t, k)) == Got(s.list[0]) && e.list == s.list[1..]
        && s.list[0] < |e.status| && e.status[s.list[0]].Owned?
  {
    hide Inv;
    HeadListed(s);
    StepKeepsInv(s, t, TryGet);
    var s1 := Next(s, Choice(t, TryGet));
    if s.list == [] {
      k := 2;
      FindsNone(s, t);
    } else {
      hide Step;
      assert Takes(s1, t, s.list[0]) by { StartsTaking(s, t); }
      k := TakesIt(s1, t, s.list[0]);
      k := k + 1;
      assert Alone(t, k)[1..] == Alone(t, k - 1);
    }
  }

  lemma StartsTaking(s: State, t: nat)
    requires Inv(s) && t < |s.pcs| && s.pcs[t].Idle?
    ensures var s1 := Next(s, Choice(t, TryGet)); s1 == s.(pcs := s.pcs[t := GLoad])
  {
    hide Inv;
    StepKeepsInv(s, t, TryGet);
  }

  lemma FindsNone(s: State, t: nat)
    requires Inv(s) && t < |s.pcs| && s.pcs[t].Idle? && s.head == NULL
    ensures EndsCall(s, Alone(t, 2), t) && LastAnswer(s, Alone(t, 2)) == Nothing && Exec(s, Alone(t, 2)) == s
  {
    hide Inv;
    StartsTaking(s, t);
    var s1 := Next(s, Choice(t, TryGet));
    var s2 := Next(s1, Choice(t, TryGet));
    WordOnList(s1, t);
    assert s2.pcs == s.pcs;
    assert Alone(t, 2)[1..] == Alone(t, 1) && Alone(t, 1)[1..] == [];
    assert Exec(s2, []) == s2;
    assert Exec(s1, Alone(t, 1)) == s2;
    assert LastAnswer(s1, Alone(t, 1)) == Nothing && EndsCall(s1, Alone(t, 1), t);
  }

  /** On its way to putting node n on the list. */
  predicate Puts(s: State, t: nat, n: nat) {
    && t < |s.pcs|
    && match s.pcs[t]
       case AddFetch(m) => m == n < |s.refs| && s.refs[n] == 0
       case KLoad(m, k) => m == n && k.Return?
       case KNext(m, h, k) => m == n && h == s.head && k.Return?
       case KRefs(m, h, k) => m == n && h == s.head && k.Return?
       case KCas(m, h, k) => m == n && h == s.head && k.Return?
       case _ => false
  }

  lemma PutsStep(s: State, t: nat, n: nat)
    requires Inv(s) && Puts(s, t, n)
    ensures var s' := Next(s, Choice(t, TryGet));
      && t < |s'.pcs| && !s.pcs[t].Idle?
      && if s.pcs[t].KCas? then s'.pcs[t].Idle? && s'.list == [n] + s.list
         else !s'.pcs[t].Idle? && Puts(s', t, n) && s'.list == s.list
  {
    hide Inv;
    WordOnList(s, t);
  }

  lemma {:induction false} PutsIt(s: State, t: nat, n: nat) returns (k: nat)
    requires Inv(s) && Puts(s, t, n)
    ensures 0 < k && EndsCall(s, Alone(t, k), t) && Exec(s, Alone(t, k)).list == [n] + s.list
    decreases InRange(s, t), if InRange(s, t) then AloneRank(s, t) else 0
  {
    hide Inv, Step, Puts, AloneRank;
    PutsStep(s, t, n);
    AloneFalls(s, t, TryGet);
    var s' := Next(s, Choice(t, TryGet));
    if s.pcs[t].KCas? {
      k := 1;
      assert Alone(t, 1)[1..] == [];
    } else {
      k := PutsIt(s', t, n);
      k := k + 1;
      assert Alone(t, k)[1..] == Alone(t, k - 1);
    }
  }

  /** An add that runs alone, wherever the others stand still: a node that nobody refers to comes to the front of the
      list; any other is left to the thread whose reference to it goes last. */
  lemma LoneAdd(s: State, t: nat, n: nat) returns (k: nat)
    requires Inv(s) && t < |s.pcs| && s.pcs[t].Idle? && n < |s.status| && s.status[n].Owned?
    ensures 0 < k && EndsCall(s, [Choice(t, Add(n))] + Alone(t, k), t)
    ensures var e := Exec(s, [Choice(t, Add(n))] + Alone(t, k));
      && n < |e.status| == |s.refs|
      && if s.refs[n] == 0 then e.list == [n] + s.list else e.list == s.list && e.status[n].Pending?
  {
    hide Inv;
    SameSize(s);
    StepKeepsInv(s, t, Add(n));
    var s1 := Next(s, Choice(t, Add(n)));
    assert ([Choice(t, Add(n))] + Alone(t, 1))[1..] == Alone(t, 1);
    if s.refs[n] == 0 {
      k := PutsIt(s1, t, n);
      hide Step;
      assert ([Choice(t, Add(n))] + Alone(t, k))[1..] == Alone(t, k);
      SameSize(Exec(s1, Alone(t, k)));
      SizeKept(s1, Alone(t, k));
    } else {
      k := 1;
      WordOnList(s1, t);
      var s2 := Next(s1, Choice(t, TryGet));
      assert Alone(t, 1)[1..] == [];
      assert Exec(s1, Alone(t, 1)) == s2 && EndsCall(s1, Alone(t, 1), t);
    }
  }

  lemma SizeOfStep(s: State, c: Choice)
    requires InRange(s, c.t)
    ensures |Step(s, c.t, c.act).refs| == |s.refs|
  {
  }

  lemma {:induction false} SizeKept(s: State, run: seq<Choice>)
    requires Inv(s) && Runnable(run, |s.pcs|)
    ensures |Exec(s, run).refs| == |s.refs|
    decreases |run|
  {
    if run != [] {
      hide Inv, Step;
      StepKeepsInv(s, run[0].t, run[0].act);
      SizeOfStep(s, run[0]);
      SizeKept(Next(s, run[0]), run[1..]);
    }
  }
}
