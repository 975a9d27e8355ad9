/** The lock-free free list of blocks (concurrentqueue.h, struct FreeList) under any number of threads.

    A step is one atomic operation of `add`, `try_get` or `add_knowing_refcount_is_zero`; a run interleaves
    the steps of all threads. A node's word `refs` holds its reference count and, in its top bit, the
    should-be-on-free-list flag. */
module FreeList {

  const FLAG: int := 0x8000_0000
  const NULL: int := -1

  /** Where add_knowing_refcount_is_zero returns to: out of `add`, or into the loop of `try_get`
      with the head its failed CAS has loaded. */
  datatype Cont = Return | Retry(head: int)

  datatype Pc =
    | Idle
    | AddFetch(n: nat)                        // fetch_add(SHOULD_BE_ON_FREELIST)
    | KLoad(n: nat, k: Cont)                  // load the head
    | KNext(n: nat, h: int, k: Cont)          // store n->next
    | KRefs(n: nat, h: int, k: Cont)          // store n->refs = 1
    | KCas(n: nat, h: int, k: Cont)           // CAS the head from h to n
    | KFail(n: nat, h: int, k: Cont)          // fetch_add(SHOULD_BE_ON_FREELIST - 1)
    | GLoad                                   // load the head
    | GRefs(n: nat)                           // load n->refs
    | GInc(n: nat, r: int)                    // CAS n->refs from r to r + 1
    | GNext(n: nat)                           // load n->next
    | GHead(n: nat, h: int)                   // CAS the head from n to h
    | GSub2(n: nat)                           // got it: drop our reference and the list's
    | GSub1(n: nat, h: int)                   // lost it: drop our reference, go on with head h

  /** Where a node is: with a caller, in a call of `add`, with the one thread that may put it on the list
      (before and after that thread has set the count to 1), on the list, just taken off it by a thread,
      or waiting for its last reference to go so that it can be put on the list. */
  datatype Status = Owned | Calling(t: nat) | Quiet(t: nat) | Trying(t: nat) | OnList | Taken(t: nat) | Pending

  /** `list` and `status` are bookkeeping: no step's outcome depends on them, except that a caller adds
      only a node it owns. */
  datatype State = State(head: int, refs: seq<int>, next: seq<int>, pcs: seq<Pc>,
                         list: seq<nat>, status: seq<Status>)

  datatype Choice = Choice(t: nat, act: Act)
  datatype Act = Add(n: nat) | TryGet

  // ---- steps ----------------------------------------------------------------------------------

  predicate Sized(s: State) {
    |s.refs| == |s.next| == |s.status|
  }

  function NodeOf(p: Pc): int { if p.Idle? || p.GLoad? then NULL else p.n }

  predicate InRange(s: State, t: nat) {
    t < |s.pcs| && NodeOf(s.pcs[t]) < |s.refs| && Sized(s)
  }

  /** Back to the loop test of `try_get` with head h. */
  function Loop(h: int): Pc { if h < 0 then Idle else GRefs(h) }

  function After(k: Cont): Pc { if k.Return? then Idle else Loop(k.head) }

  function Start(s: State, t: nat, a: Act): State
    requires InRange(s, t) && s.pcs[t].Idle?
  {
    match a
    case Add(n) =>
      if n < |s.status| && s.status[n].Owned?
      then s.(pcs := s.pcs[t := AddFetch(n)], status := s.status[n := Calling(t)])
      else s
    case TryGet => s.(pcs := s.pcs[t := GLoad])
  }

  function AddStep(s: State, t: nat): State
    requires InRange(s, t) && s.pcs[t].AddFetch?
  {
    var n := s.pcs[t].n;
    var last := s.refs[n] == 0;
    s.(refs := s.refs[n := s.refs[n] + FLAG],
       pcs := s.pcs[t := if last then KLoad(n, Return) else Idle],
       status := s.status[n := if last then Quiet(t) else Pending])
  }

  function KLoadStep(s: State, t: nat): State
    requires InRange(s, t) && s.pcs[t].KLoad?
  {
    s.(pcs := s.pcs[t := KNext(s.pcs[t].n, s.head, s.pcs[t].k)])
  }

  function KNextStep(s: State, t: nat): State
    requires InRange(s, t) && s.pcs[t].KNext?
  {
    var p := s.pcs[t];
    s.(next := s.next[p.n := p.h], pcs := s.pcs[t := KRefs(p.n, p.h, p.k)])
  }

  function KRefsStep(s: State, t: nat): State
    requires InRange(s, t) && s.pcs[t].KRefs?
  {
    var p := s.pcs[t];
    s.(refs := s.refs[p.n := 1], pcs := s.pcs[t := KCas(p.n, p.h, p.k)], status := s.status[p.n := Trying(t)])
  }

  function KCasStep(s: State, t: nat): State
    requires InRange(s, t) && s.pcs[t].KCas?
  {
    var p := s.pcs[t];
    if s.head == p.h
    then s.(head := p.n, pcs := s.pcs[t := After(p.k)], list := [p.n] + s.list, status := s.status[p.n := OnList])
    else s.(pcs := s.pcs[t := KFail(p.n, s.head, p.k)])
  }

  function KFailStep(s: State, t: nat): State
    requires InRange(s, t) && s.pcs[t].KFail?
  {
    var p := s.pcs[t];
    var last := s.refs[p.n] == 1;
    s.(refs := s.refs[p.n := s.refs[p.n] + FLAG - 1],
       pcs := s.pcs[t := if last then KNext(p.n, p.h, p.k) else After(p.k)],
       status := s.status[p.n := if last then Quiet(t) else Pending])
  }

  function GLoadStep(s: State, t: nat): State
    requires InRange(s, t) && s.pcs[t].GLoad?
  {
    s.(pcs := s.pcs[t := Loop(s.head)])
  }

  function GRefsStep(s: State, t: nat): State
    requires InRange(s, t) && s.pcs[t].GRefs?
  {
    var n := s.pcs[t].n;
    s.(pcs := s.pcs[t := if s.refs[n] % FLAG == 0 then GLoad else GInc(n, s.refs[n])])
  }

  function GIncStep(s: State, t: nat): State
    requires InRange(s, t) && s.pcs[t].GInc?
  {
    var p := s.pcs[t];
    var same := s.refs[p.n] == p.r;
    s.(refs := s.refs[p.n := if same then p.r + 1 else s.refs[p.n]],
       pcs := s.pcs[t := if same then GNext(p.n) else GLoad])
  }

  function GNextStep(s: State, t: nat): State
    requires InRange(s, t) && s.pcs[t].GNext?
  {
    s.(pcs := s.pcs[t := GHead(s.pcs[t].n, s.next[s.pcs[t].n])])
  }

  function GHeadStep(s: State, t: nat): State
    requires InRange(s, t) && s.pcs[t].GHead?
  {
    var p := s.pcs[t];
    if s.head == p.n
    then s.(head := p.h, pcs := s.pcs[t := GSub2(p.n)], list := if s.list == [] then [] else s.list[1..],
            status := s.status[p.n := Taken(t)])
    else s.(pcs := s.pcs[t := GSub1(p.n, s.head)])
  }

  function GSub2Step(s: State, t: nat): State
    requires InRange(s, t) && s.pcs[t].GSub2?
  {
    var n := s.pcs[t].n;
    s.(refs := s.refs[n := s.refs[n] - 2], pcs := s.pcs[t := Idle], status := s.status[n := Owned])
  }

  function GSub1Step(s: State, t: nat): State
    requires InRange(s, t) && s.pcs[t].GSub1?
  {
    var p := s.pcs[t];
    var last := s.refs[p.n] == FLAG + 1;
    s.(refs := s.refs[p.n := s.refs[p.n] - 1],
       pcs := s.pcs[t := if last then KLoad(p.n, Retry(p.h)) else Loop(p.h)],
       status := s.status[p.n := if last then Quiet(t) else s.status[p.n]])
  }

  /** One step of thread t; an idle thread starts a call. */
  function Step(s: State, t: nat, a: Act): State
    requires InRange(s, t)
  {
    match s.pcs[t]
    case Idle => Start(s, t, a)
    case AddFetch(_) => AddStep(s, t)
    case KLoad(_, _) => KLoadStep(s, t)
    case KNext(_, _, _) => KNextStep(s, t)
    case KRefs(_, _, _) => KRefsStep(s, t)
    case KCas(_, _, _) => KCasStep(s, t)
    case KFail(_, _, _) => KFailStep(s, t)
    case GLoad => GLoadStep(s, t)
    case GRefs(_) => GRefsStep(s, t)
    case GInc(_, _) => GIncStep(s, t)
    case GNext(_) => GNextStep(s, t)
    case GHead(_, _) => GHeadStep(s, t)
    case GSub2(_) => GSub2Step(s, t)
    case GSub1(_, _) => GSub1Step(s, t)
  }

  // ---- invariant ------------------------------------------------------------------------------

  /** The thread has a counted reference to n. */
  function Holds(p: Pc, n: nat): nat {
    if (p.GNext? || p.GHead? || p.GSub2? || p.GSub1?) && NodeOf(p) == n then 1 else 0
  }

  ghost function Holders(pcs: seq<Pc>, n: nat): nat {
    if pcs == [] then 0 else Holds(pcs[0], n) + Holders(pcs[1..], n)
  }

  /** What a node's status alone contributes to its word. */
  function Base(st: Status): int {
    match st
    case Owned => 0
    case Calling(_) => 0
    case Quiet(_) => FLAG
    case Trying(_) => 1
    case OnList => 1
    case Taken(_) => 1
    case Pending => FLAG
  }

  predicate At(pcs: seq<Pc>, t: nat, n: nat) { t < |pcs| && NodeOf(pcs[t]) == n }

  /** The thread a status names is at the place in the code that goes with it. */
  predicate Placed(pcs: seq<Pc>, n: nat, st: Status) {
    match st
    case Calling(t) => At(pcs, t, n) && pcs[t].AddFetch?
    case Quiet(t) => At(pcs, t, n) && (pcs[t].KLoad? || pcs[t].KNext? || pcs[t].KRefs?)
    case Trying(t) => At(pcs, t, n) && (pcs[t].KCas? || pcs[t].KFail?)
    case Taken(t) => At(pcs, t, n) && pcs[t].GSub2?
    case _ => true
  }

  ghost predicate NodeOk(refs: seq<int>, pcs: seq<Pc>, status: seq<Status>, n: nat)
    requires n < |refs| == |status|
  {
    && refs[n] == Holders(pcs, n) + Base(status[n]) && Placed(pcs, n, status[n])
    && (status[n].Quiet? ==> Holders(pcs, n) == 0) && (status[n].Pending? ==> 0 < Holders(pcs, n))
  }

  ghost predicate Nodes(s: State)
    requires Sized(s)
  {
    forall n :: 0 <= n < |s.refs| ==> NodeOk(s.refs, s.pcs, s.status, n)
  }

  predicate HeadOk(h: int, n: nat) { NULL <= h < n }

  predicate ContOk(k: Cont, n: nat) { k.Retry? ==> HeadOk(k.head, n) }

  predicate ThreadOk(p: Pc, t: nat, next: seq<int>, status: seq<Status>)
    requires |next| == |status|
  {
    && NodeOf(p) < |next|
    && match p
       case Idle => true
       case AddFetch(n) => status[n] == Calling(t)
       case KLoad(n, k) => status[n] == Quiet(t) && ContOk(k, |next|)
       case KNext(n, h, k) => status[n] == Quiet(t) && ContOk(k, |next|) && HeadOk(h, |next|)
       case KRefs(n, h, k) => status[n] == Quiet(t) && ContOk(k, |next|) && next[n] == h && HeadOk(h, |next|)
       case KCas(n, h, k) => status[n] == Trying(t) && ContOk(k, |next|) && next[n] == h && HeadOk(h, |next|)
       case KFail(n, h, k) => status[n] == Trying(t) && ContOk(k, |next|) && HeadOk(h, |next|)
       case GLoad => true
       case GRefs(n) => true
       case GInc(n, r) => r % FLAG != 0
       case GNext(n) => true
       case GHead(n, h) => next[n] == h
       case GSub2(n) => status[n] == Taken(t)
       case GSub1(n, h) => HeadOk(h, |next|)
  }

  ghost predicate Threads(s: State)
    requires Sized(s)
  {
    forall t :: 0 <= t < |s.pcs| ==> ThreadOk(s.pcs[t], t, s.next, s.status)
  }

  /** The nodes of `list` are linked from the head to the null at the end, and are those on the list. */
  ghost predicate Chain(head: int, list: seq<nat>, next: seq<int>, status: seq<Status>)
    requires |next| == |status|
  {
    && head == (if list == [] then NULL else list[0])
    && (forall i :: 0 <= i < |list| ==> list[i] < |next| && status[list[i]].OnList?)
    && (forall i, j :: 0 <= i < j < |list| ==> list[i] != list[j])
    && (forall i, j :: 0 <= i < |list| && 0 <= j < |list| && j == i + 1 ==> next[list[i]] == list[j])
    && (list != [] ==> next[list[|list| - 1]] == NULL)
    && (forall n :: 0 <= n < |status| && status[n].OnList? ==> n in list)
  }

  /** Counts stay below the flag because there are fewer threads than counts. */
  ghost predicate Inv(s: State) {
    && Sized(s) && |s.pcs| + 2 < FLAG
    && Nodes(s) && Threads(s) && Chain(s.head, s.list, s.next, s.status)
  }

  // ---- counting references ----------------------------------------------------------------------

  lemma {:induction false} HoldersUpdate(pcs: seq<Pc>, t: nat, p: Pc, n: nat)
    requires t < |pcs|
    ensures Holders(pcs[t := p], n) == Holders(pcs, n) - Holds(pcs[t], n) + Holds(p, n)
  {
    var pcs' := pcs[t := p];
    if t == 0 {
      assert pcs'[1..] == pcs[1..];
    } else {
      assert pcs'[1..] == pcs[1..][t - 1 := p];
      HoldersUpdate(pcs[1..], t - 1, p, n);
    }
  }

  lemma {:induction false} HoldersBound(pcs: seq<Pc>, n: nat)
    ensures Holders(pcs, n) <= |pcs|
  {
    if pcs != [] { HoldersBound(pcs[1..], n); }
  }

  lemma {:induction false} HolderCounts(pcs: seq<Pc>, t: nat, n: nat)
    requires t < |pcs| && Holds(pcs[t], n) == 1
    ensures 1 <= Holders(pcs, n)
  {
    if t != 0 { HolderCounts(pcs[1..], t - 1, n); }
  }

  lemma {:induction false} SomeHolder(pcs: seq<Pc>, n: nat) returns (t: nat)
    requires 0 < Holders(pcs, n)
    ensures t < |pcs| && Holds(pcs[t], n) == 1
  {
    if Holds(pcs[0], n) == 1 {
      t := 0;
    } else {
      t := SomeHolder(pcs[1..], n);
      t := t + 1;
    }
  }

  // ---- every step keeps the invariant -------------------------------------------------------------

  lemma KeepNodes(s: State, s': State, t: nat, p: Pc, x: int)
    requires Sized(s) && Sized(s') && |s'.refs| == |s.refs| && t < |s.pcs| && s'.pcs == s.pcs[t := p]
    requires Nodes(s) && (NodeOf(s.pcs[t]) == x || NodeOf(s.pcs[t]) == NULL)
    requires forall m :: 0 <= m < |s.refs| && m != x ==>
      s'.refs[m] == s.refs[m] && s'.status[m] == s.status[m] && Holds(s.pcs[t], m) == Holds(p, m)
    requires 0 <= x < |s.refs| ==> NodeOk(s'.refs, s'.pcs, s'.status, x)
    ensures Nodes(s')
  {
    forall m | 0 <= m < |s'.refs| ensures NodeOk(s'.refs, s'.pcs, s'.status, m) {
      if m != x {
        assert NodeOk(s.refs, s.pcs, s.status, m);
        HoldersUpdate(s.pcs, t, p, m);
      }
    }
  }

  /** No thread but t has anything to say about a node in this status. */
  predicate FreeFor(st: Status, t: nat) {
    match st
    case Calling(u) => u == t
    case Quiet(u) => u == t
    case Trying(u) => u == t
    case Taken(u) => u == t
    case _ => true
  }

  lemma KeepThreads(s: State, s': State, t: nat, p: Pc, x: int)
    requires Sized(s) && Sized(s') && |s'.next| == |s.next| && t < |s.pcs| && s'.pcs == s.pcs[t := p]
    requires Threads(s) && ThreadOk(p, t, s'.next, s'.status)
    requires forall m :: 0 <= m < |s.next| && m != x ==> s'.next[m] == s.next[m] && s'.status[m] == s.status[m]
    requires 0 <= x < |s.next| ==>
      && (s'.status[x] == s.status[x] || FreeFor(s.status[x], t))
      && (s'.next[x] == s.next[x] || (s.status[x] == Quiet(t) && Holders(s.pcs, x) == 0))
    ensures Threads(s')
  {
    forall u | 0 <= u < |s'.pcs| ensures ThreadOk(s'.pcs[u], u, s'.next, s'.status) {
      if u != t {
        assert ThreadOk(s.pcs[u], u, s.next, s.status);
        if s.pcs[u].GHead? && s.pcs[u].n == x {
          HolderCounts(s.pcs, u, x);
        }
      }
    }
  }

  lemma KeepStart(s: State, t: nat, a: Act)
    requires Inv(s) && t < |s.pcs| && InRange(s, t) && s.pcs[t].Idle?
    ensures Inv(Start(s, t, a))
  {
    hide Inv;
    match a
    case Add(n) => if n < |s.status| && s.status[n].Owned? { KeepStartAdd(s, t, n); }
    case TryGet => KeepStartGet(s, t);
  }

  lemma KeepStartAdd(s: State, t: nat, n: nat)
    requires Inv(s) && t < |s.pcs| && InRange(s, t) && s.pcs[t].Idle? && n < |s.status| && s.status[n].Owned?
    ensures Inv(Start(s, t, Add(n)))
  {
    hide Nodes, Threads, Holders, Chain;
    var s' := Start(s, t, Add(n));
    Facts(s, t, n, AddFetch(n));
    KeepNodes(s, s', t, AddFetch(n), n);
    KeepThreads(s, s', t, AddFetch(n), n);
    KeepChain(s.head, s.list, s.next, s.status, s'.next, s'.status);
  }

  lemma KeepStartGet(s: State, t: nat)
    requires Inv(s) && t < |s.pcs| && InRange(s, t) && s.pcs[t].Idle?
    ensures Inv(Start(s, t, TryGet))
  {
    hide Nodes, Threads, Holders, Chain;
    KeepNodes(s, Start(s, t, TryGet), t, GLoad, NULL);
    KeepThreads(s, Start(s, t, TryGet), t, GLoad, NULL);
  }

  lemma KeepChain(head: int, list: seq<nat>, next: seq<int>, status: seq<Status>, next': seq<int>, status': seq<Status>)
    requires |next| == |status| == |next'| == |status'| && Chain(head, list, next, status)
    requires forall m :: 0 <= m < |status| ==> status'[m].OnList? == status[m].OnList?
    requires forall m :: 0 <= m < |status| && status[m].OnList? ==> next'[m] == next[m]
    ensures Chain(head, list, next', status')
  {
  }

  /** The facts about thread t and its node x that a step of t starts from. */
  lemma Facts(s: State, t: nat, x: nat, p: Pc)
    requires Inv(s) && t < |s.pcs| && x < |s.refs|
    ensures NodeOk(s.refs, s.pcs, s.status, x) && ThreadOk(s.pcs[t], t, s.next, s.status)
    ensures Holders(s.pcs[t := p], x) == Holders(s.pcs, x) - Holds(s.pcs[t], x) + Holds(p, x)
    ensures Holders(s.pcs, x) + 2 < FLAG && Holds(s.pcs[t], x) <= Holders(s.pcs, x)
    ensures HeadOk(s.head, |s.refs|)
  {
    HoldersUpdate(s.pcs, t, p, x);
    HoldersBound(s.pcs, x);
    if Holds(s.pcs[t], x) == 1 { HolderCounts(s.pcs, t, x); }
  }

  lemma KeepAdd(s: State, t: nat)
    requires Inv(s) && InRange(s, t) && s.pcs[t].AddFetch?
    ensures Inv(AddStep(s, t))
  {
    hide Chain, Nodes, Threads;
    var s', x := AddStep(s, t), s.pcs[t].n;
    Facts(s, t, x, s'.pcs[t]);
    KeepNodes(s, s', t, s'.pcs[t], x);
    KeepThreads(s, s', t, s'.pcs[t], x);
    KeepChain(s.head, s.list, s.next, s.status, s'.next, s'.status);
  }

  lemma KeepKLoad(s: State, t: nat)
    requires Inv(s) && InRange(s, t) && s.pcs[t].KLoad?
    ensures Inv(KLoadStep(s, t))
  {
    hide Chain, Nodes, Threads;
    var s', x := KLoadStep(s, t), s.pcs[t].n;
    Facts(s, t, x, s'.pcs[t]);
    KeepNodes(s, s', t, s'.pcs[t], x);
    KeepThreads(s, s', t, s'.pcs[t], x);
  }

  lemma KeepKNext(s: State, t: nat)
    requires Inv(s) && InRange(s, t) && s.pcs[t].KNext?
    ensures Inv(KNextStep(s, t))
  {
    hide Chain, Nodes, Threads;
    var s', x := KNextStep(s, t), s.pcs[t].n;
    Facts(s, t, x, s'.pcs[t]);
    KeepNodes(s, s', t, s'.pcs[t], x);
    KeepThreads(s, s', t, s'.pcs[t], x);
    KeepChain(s.head, s.list, s.next, s.status, s'.next, s'.status);
  }

  lemma KeepKRefs(s: State, t: nat)
    requires Inv(s) && InRange(s, t) && s.pcs[t].KRefs?
    ensures Inv(KRefsStep(s, t))
  {
    hide Chain, Nodes, Threads;
    var s', x := KRefsStep(s, t), s.pcs[t].n;
    Facts(s, t, x, s'.pcs[t]);
    KeepNodes(s, s', t, s'.pcs[t], x);
    KeepThreads(s, s', t, s'.pcs[t], x);
    KeepChain(s.head, s.list, s.next, s.status, s'.next, s'.status);
  }

  lemma KeepKFail(s: State, t: nat)
    requires Inv(s) && InRange(s, t) && s.pcs[t].KFail?
    ensures Inv(KFailStep(s, t))
  {
    hide Chain, Nodes, Threads;
    var s', x := KFailStep(s, t), s.pcs[t].n;
    Facts(s, t, x, s'.pcs[t]);
    KeepNodes(s, s', t, s'.pcs[t], x);
    KeepThreads(s, s', t, s'.pcs[t], x);
    KeepChain(s.head, s.list, s.next, s.status, s'.next, s'.status);
  }

  lemma KeepGRefs(s: State, t: nat)
    requires Inv(s) && InRange(s, t) && s.pcs[t].GRefs?
    ensures Inv(GRefsStep(s, t))
  {
    hide Chain, Nodes, Threads;
    var s', x := GRefsStep(s, t), s.pcs[t].n;
    Facts(s, t, x, s'.pcs[t]);
    KeepNodes(s, s', t, s'.pcs[t], x);
    KeepThreads(s, s', t, s'.pcs[t], x);
  }

  lemma KeepGInc(s: State, t: nat)
    requires Inv(s) && InRange(s, t) && s.pcs[t].GInc?
    ensures Inv(GIncStep(s, t))
  {
    hide Chain, Nodes, Threads;
    var s', x := GIncStep(s, t), s.pcs[t].n;
    Facts(s, t, x, s'.pcs[t]);
    KeepNodes(s, s', t, s'.pcs[t], x);
    KeepThreads(s, s', t, s'.pcs[t], x);
  }

  lemma KeepGNext(s: State, t: nat)
    requires Inv(s) && InRange(s, t) && s.pcs[t].GNext?
    ensures Inv(GNextStep(s, t))
  {
    hide Chain, Nodes, Threads;
    var s', x := GNextStep(s, t), s.pcs[t].n;
    Facts(s, t, x, s'.pcs[t]);
    KeepNodes(s, s', t, s'.pcs[t], x);
    KeepThreads(s, s', t, s'.pcs[t], x);
  }

  lemma KeepGSub2(s: State, t: nat)
    requires Inv(s) && InRange(s, t) && s.pcs[t].GSub2?
    ensures Inv(GSub2Step(s, t))
  {
    hide Chain, Nodes, Threads;
    var s', x := GSub2Step(s, t), s.pcs[t].n;
    Facts(s, t, x, s'.pcs[t]);
    KeepNodes(s, s', t, s'.pcs[t], x);
    KeepThreads(s, s', t, s'.pcs[t], x);
    KeepChain(s.head, s.list, s.next, s.status, s'.next, s'.status);
  }

  lemma KeepGSub1(s: State, t: nat)
    requires Inv(s) && InRange(s, t) && s.pcs[t].GSub1?
    ensures Inv(GSub1Step(s, t))
  {
    hide Chain, Nodes, Threads;
    var s', x := GSub1Step(s, t), s.pcs[t].n;
    Facts(s, t, x, s'.pcs[t]);
    KeepNodes(s, s', t, s'.pcs[t], x);
    KeepThreads(s, s', t, s'.pcs[t], x);
    KeepChain(s.head, s.list, s.next, s.status, s'.next, s'.status);
  }

  lemma KeepGLoad(s: State, t: nat)
    requires Inv(s) && InRange(s, t) && s.pcs[t].GLoad?
    ensures Inv(GLoadStep(s, t))
  {
    var s' := GLoadStep(s, t);
    assert HeadOk(s.head, |s.refs|);
    hide Chain, Nodes, Threads;
    KeepNodes(s, s', t, s'.pcs[t], NULL);
    KeepThreads(s, s', t, s'.pcs[t], NULL);
  }

  /** A successful CAS puts the node in front of the list. */
  lemma PushChain(head: int, list: seq<nat>, next: seq<int>, status: seq<Status>, n: nat)
    requires |next| == |status| && Chain(head, list, next, status)
    requires n < |next| && next[n] == head && !status[n].OnList?
    ensures Chain(n, [n] + list, next, status[n := OnList])
  {
    var list' := [n] + list;
    forall m | 0 <= m < |status| && status[n := OnList][m].OnList? ensures m in list' {
      if m != n {
        var i :| 0 <= i < |list| && list[i] == m;
        assert list'[i + 1] == m;
      }
    }
  }

  /** A successful CAS takes the first node off the list. */
  lemma PopChain(head: int, list: seq<nat>, next: seq<int>, status: seq<Status>, t: nat)
    requires |next| == |status| && Chain(head, list, next, status) && head != NULL
    ensures list != [] && head == list[0] && list[0] < |next| && status[head].OnList?
    ensures Chain(next[head], list[1..], next, status[head := Taken(t)])
  {
    var list' := list[1..];
    forall m | 0 <= m < |status| && status[head := Taken(t)][m].OnList? ensures m in list' {
      var i :| 0 <= i < |list| && list[i] == m;
      assert list'[i - 1] == m;
    }
  }

  lemma KeepKCas(s: State, t: nat)
    requires Inv(s) && InRange(s, t) && s.pcs[t].KCas?
    ensures Inv(KCasStep(s, t))
  {
    hide Chain, Nodes, Threads;
    var s', x := KCasStep(s, t), s.pcs[t].n;
    Facts(s, t, x, s'.pcs[t]);
    if s.head == s.pcs[t].h { PushChain(s.head, s.list, s.next, s.status, x); }
    KeepNodes(s, s', t, s'.pcs[t], x);
    KeepThreads(s, s', t, s'.pcs[t], x);
  }

  lemma KeepGHead(s: State, t: nat)
    requires Inv(s) && InRange(s, t) && s.pcs[t].GHead?
    ensures Inv(GHeadStep(s, t))
  {
    hide Chain, Nodes, Threads;
    var s', x := GHeadStep(s, t), s.pcs[t].n;
    Facts(s, t, x, s'.pcs[t]);
    if s.head == x {
      PopChain(s.head, s.list, s.next, s.status, t);
      assert s'.status == s.status[x := Taken(t)] && s'.next == s.next && s'.refs == s.refs;
      assert Nodes(s') by { KeepNodes(s, s', t, GSub2(x), x); }
      assert Threads(s') by { KeepThreads(s, s', t, GSub2(x), x); }
    } else {
      assert Nodes(s') by { KeepNodes(s, s', t, GSub1(x, s.head), x); }
      assert Threads(s') by { KeepThreads(s, s', t, GSub1(x, s.head), x); }
    }
  }

  lemma StepKeepsInv(s: State, t: nat, a: Act)
    requires Inv(s) && t < |s.pcs|
    ensures InRange(s, t) && Inv(Step(s, t, a)) && |Step(s, t, a).pcs| == |s.pcs|
  {
    assert ThreadOk(s.pcs[t], t, s.next, s.status);
    hide Inv;
    match s.pcs[t]
    case Idle => KeepStart(s, t, a);
    case AddFetch(_) => KeepAdd(s, t);
    case KLoad(_, _) => KeepKLoad(s, t);
    case KNext(_, _, _) => KeepKNext(s, t);
    case KRefs(_, _, _) => KeepKRefs(s, t);
    case KCas(_, _, _) => KeepKCas(s, t);
    case KFail(_, _, _) => KeepKFail(s, t);
    case GLoad => KeepGLoad(s, t);
    case GRefs(_) => KeepGRefs(s, t);
    case GInc(_, _) => KeepGInc(s, t);
    case GNext(_) => KeepGNext(s, t);
    case GHead(_, _) => KeepGHead(s, t);
    case GSub2(_) => KeepGSub2(s, t);
    case GSub1(_, _) => KeepGSub1(s, t);
  }

  // ---- what holds of every run ----------------------------------------------------------------------

  /** All nodes are with their callers, and no thread is in a call. */
  ghost predicate Initial(s: State) {
    && Sized(s) && |s.pcs| + 2 < FLAG && s.head == NULL && s.list == []
    && (forall n :: 0 <= n < |s.refs| ==> s.refs[n] == 0 && s.status[n].Owned?)
    && (forall t :: 0 <= t < |s.pcs| ==> s.pcs[t].Idle?)
  }

  lemma {:induction false} NoHolders(pcs: seq<Pc>, n: nat)
    requires forall t :: 0 <= t < |pcs| ==> Holds(pcs[t], n) == 0
    ensures Holders(pcs, n) == 0
  {
    if pcs != [] { NoHolders(pcs[1..], n); }
  }

  lemma InitialInv(s: State)
    requires Initial(s)
    ensures Inv(s)
  {
    forall n | 0 <= n < |s.refs| ensures NodeOk(s.refs, s.pcs, s.status, n) {
      NoHolders(s.pcs, n);
    }
  }

  /** The choices of a run name threads that exist. */
  predicate Runnable(run: seq<Choice>, threads: nat) {
    forall i :: 0 <= i < |run| ==> run[i].t < threads
  }

  ghost function Exec(s: State, run: seq<Choice>): (r: State)
    requires Inv(s) && Runnable(run, |s.pcs|)
    ensures Inv(r)
    decreases |run|
  {
    if run == [] then s
    else
      StepKeepsInv(s, run[0].t, run[0].act);
      Exec(Step(s, run[0].t, run[0].act), run[1..])
  }

  ghost predicate OnListOnce(s: State, n: nat) {
    exists i :: 0 <= i < |s.list| && s.list[i] == n && (forall j :: 0 <= j < |s.list| && s.list[j] == n ==> j == i)
  }

  /** In every reachable state the nodes split into those owned by a caller, those on the list exactly once,
      and those some thread or some last reference still has to put on the list or hand to its caller. */
  lemma Partition(s: State, n: nat)
    requires Inv(s) && n < |s.refs|
    ensures OnListOnce(s, n) <==> s.status[n].OnList?
    ensures !s.status[n].OnList? ==> n !in s.list && s.head != n
    ensures s.status[n].Owned? ==> s.refs[n] < FLAG && n !in s.list
    ensures s.status[n].Pending? || s.status[n].Quiet? <==> FLAG <= s.refs[n]
  {
    hide Nodes, Threads, Holders;
    WordOf(s, n);
    if s.status[n].OnList? {
      var i :| 0 <= i < |s.list| && s.list[i] == n;
      assert OnListOnce(s, n);
    }
  }

  lemma WordOf(s: State, n: nat)
    requires Inv(s) && n < |s.refs|
    ensures s.status[n].Pending? || s.status[n].Quiet? <==> FLAG <= s.refs[n]
    ensures s.status[n].Owned? ==> s.refs[n] < FLAG
  {
    hide Threads, Chain, Placed;
    HoldersBound(s.pcs, n);
    assert NodeOk(s.refs, s.pcs, s.status, n);
  }

  /** The node a successful `try_get` hands out is off the list, was with nobody else, and comes with its
      flag clear: two threads never get the same node, and the CAS on the head is safe from a node that
      has left the list and come back. */
  lemma HandedOutOnce(s: State, t: nat, u: nat)
    requires Inv(s) && t < |s.pcs| && s.pcs[t].GSub2? && u < |s.pcs| && u != t
    ensures var n := s.pcs[t].n;
      && n < |s.refs| && n !in s.list && !s.status[n].Owned? && 2 <= s.refs[n] < FLAG
      && !(s.pcs[u].GSub2? && s.pcs[u].n == n) && !(s.pcs[u].KCas? && s.pcs[u].n == n)
  {
    assert ThreadOk(s.pcs[t], t, s.next, s.status) && ThreadOk(s.pcs[u], u, s.next, s.status);
    var n := s.pcs[t].n;
    assert NodeOk(s.refs, s.pcs, s.status, n);
    Partition(s, n);
    HolderCounts(s.pcs, t, n);
    HoldersBound(s.pcs, n);
  }

  /** The assertion after a successful CAS on the head, and the value the CAS installs: the flag of the node
      is clear, and the new head is the node after it on the list. */
  lemma HeadCasIsSafe(s: State, t: nat)
    requires Inv(s) && t < |s.pcs| && s.pcs[t].GHead? && s.head == s.pcs[t].n
    ensures var n := s.pcs[t].n;
      && s.list != [] && s.list[0] == n < |s.refs| && 0 < s.refs[n] < FLAG
      && s.pcs[t].h == (if |s.list| == 1 then NULL else s.list[1])
  {
    assert ThreadOk(s.pcs[t], t, s.next, s.status);
    var n := s.pcs[t].n;
    assert NodeOk(s.refs, s.pcs, s.status, n);
    HoldersBound(s.pcs, n);
  }

  /** With no call under way, no node is lost: each is with a caller, its word 0, or on the list, its word 1. */
  lemma Quiescent(s: State, n: nat)
    requires Inv(s) && n < |s.refs| && forall t :: 0 <= t < |s.pcs| ==> s.pcs[t].Idle?
    ensures (s.status[n].Owned? && s.refs[n] == 0 && n !in s.list)
        || (s.status[n].OnList? && s.refs[n] == 1 && n in s.list)
  {
    NoHolders(s.pcs, n);
    assert NodeOk(s.refs, s.pcs, s.status, n);
    Partition(s, n);
  }

  /** From the initial state, after any interleaving: the list is acyclic from its head, and every node is
      where its word says. */
  lemma RunIsSafe(s0: State, run: seq<Choice>)
    requires Initial(s0) && Runnable(run, |s0.pcs|)
    ensures Inv(s0)
    ensures var s := Exec(s0, run);
      && |s.refs| == |s.next| == |s.status| && Chain(s.head, s.list, s.next, s.status)
      && forall n :: 0 <= n < |s.refs| ==>
           (OnListOnce(s, n) <==> s.status[n].OnList?) && 0 <= s.refs[n] < 2 * FLAG
  {
    InitialInv(s0);
    var s := Exec(s0, run);
    forall n | 0 <= n < |s.refs|
      ensures (OnListOnce(s, n) <==> s.status[n].OnList?) && 0 <= s.refs[n] < 2 * FLAG
    {
      Partition(s, n);
      HoldersBound(s.pcs, n);
      assert NodeOk(s.refs, s.pcs, s.status, n);
    }
  }
}
