/** How the dequeuers of one producer's sub-queue share its elements (concurrentqueue.h, ImplicitProducer::
    dequeue up to the claim of an index): an optimistic count of attempts, an overcommit count of attempts
    that came too late, and the head index. One enqueuer, any number of dequeuers, one shared access a step.

    Counters are the unbounded counts the wrapping ones stand for; Bits.CircularOrder says when comparing
    the wrapping ones gives the same answers. */
module DequeueCounters {

  /** `snap` is the set of failed attempts that the loaded overcommit count stands for (bookkeeping). */
  datatype Pc =
    | DIdle
    | ReadOver(tail: nat)                              // load dequeueOvercommit
    | ReadOpt(tail: nat, over: nat, snap: set<nat>)    // load dequeueOptimisticCount and compare
    | FetchOpt(over: nat, snap: set<nat>)              // fetch_add dequeueOptimisticCount
    | ReadTail(mine: nat, over: nat, snap: set<nat>)   // load tailIndex again and compare
    | Claim(mine: nat)                                 // fetch_add headIndex
    | GiveUp(mine: nat)                                // fetch_add dequeueOvercommit
    | Have(i: nat)                                     // owns index i

  /** Bookkeeping: the attempts that passed the second check and those that gave up, the latest of the
      former and the failures its overcommit count stood for. */
  datatype State = State(tail: nat, head: nat, opt: nat, over: nat, pcs: seq<Pc>,
                         won: set<nat>, lost: set<nat>, top: nat, topSnap: set<nat>)

  // ---- steps ----------------------------------------------------------------------------------

  /** The enqueuer stores the tail index after constructing one more element. */
  function Publish(s: State): State { s.(tail := s.tail + 1) }

  function Start(s: State, t: nat): State
    requires t < |s.pcs|
  {
    s.(pcs := s.pcs[t := ReadOver(s.tail)])
  }

  function ReadOverStep(s: State, t: nat): State
    requires t < |s.pcs| && s.pcs[t].ReadOver?
  {
    s.(pcs := s.pcs[t := ReadOpt(s.pcs[t].tail, s.over, s.lost)])
  }

  function ReadOptStep(s: State, t: nat): State
    requires t < |s.pcs| && s.pcs[t].ReadOpt?
  {
    var p := s.pcs[t];
    s.(pcs := s.pcs[t := if s.opt - p.over < p.tail then FetchOpt(p.over, p.snap) else DIdle])
  }

  function FetchOptStep(s: State, t: nat): State
    requires t < |s.pcs| && s.pcs[t].FetchOpt?
  {
    var p := s.pcs[t];
    s.(opt := s.opt + 1, pcs := s.pcs[t := ReadTail(s.opt, p.over, p.snap)])
  }

  function ReadTailStep(s: State, t: nat): State
    requires t < |s.pcs| && s.pcs[t].ReadTail?
  {
    var p := s.pcs[t];
    var wins := p.mine - p.over < s.tail;
    var newTop := wins && (s.won == {} || s.top < p.mine);
    s.(pcs := s.pcs[t := if wins then Claim(p.mine) else GiveUp(p.mine)],
       won := if wins then s.won + {p.mine} else s.won,
       top := if newTop then p.mine else s.top, topSnap := if newTop then p.snap else s.topSnap)
  }

  function ClaimStep(s: State, t: nat): State
    requires t < |s.pcs| && s.pcs[t].Claim?
  {
    s.(head := s.head + 1, pcs := s.pcs[t := Have(s.head)])
  }

  function GiveUpStep(s: State, t: nat): State
    requires t < |s.pcs| && s.pcs[t].GiveUp?
  {
    s.(over := s.over + 1, pcs := s.pcs[t := DIdle], lost := s.lost + {s.pcs[t].mine})
  }

  /** The dequeuer is done with its index. */
  function Finish(s: State, t: nat): State
    requires t < |s.pcs| && s.pcs[t].Have?
  {
    s.(pcs := s.pcs[t := DIdle])
  }

  /** One step of dequeuer t up to its claim; one that owns an index stays as it is. */
  function Step(s: State, t: nat): State
    requires t < |s.pcs|
  {
    match s.pcs[t]
    case DIdle => Start(s, t)
    case ReadOver(_) => ReadOverStep(s, t)
    case ReadOpt(_, _, _) => ReadOptStep(s, t)
    case FetchOpt(_, _) => FetchOptStep(s, t)
    case ReadTail(_, _, _) => ReadTailStep(s, t)
    case Claim(_) => ClaimStep(s, t)
    case GiveUp(_) => GiveUpStep(s, t)
    case Have(_) => s
  }

  // ---- invariant ------------------------------------------------------------------------------

  /** An attempt counted but neither turned into an index nor given up. */
  function InFlight(p: Pc): nat { if p.ReadTail? || p.Claim? || p.GiveUp? then 1 else 0 }

  function Claiming(p: Pc): nat { if p.Claim? then 1 else 0 }

  ghost function CountFlight(pcs: seq<Pc>): nat {
    if pcs == [] then 0 else InFlight(pcs[0]) + CountFlight(pcs[1..])
  }

  ghost function CountClaims(pcs: seq<Pc>): nat {
    if pcs == [] then 0 else Claiming(pcs[0]) + CountClaims(pcs[1..])
  }

  ghost predicate Below(xs: set<nat>, n: nat) { forall x :: x in xs ==> x < n }

  ghost predicate SnapOk(snap: set<nat>, over: nat, lost: set<nat>, n: nat) {
    snap <= lost && |snap| == over && Below(snap, n)
  }

  /** What a dequeuer's pending attempt amounts to. */
  ghost predicate ThreadOk(p: Pc, s: State) {
    match p
    case ReadOpt(_, over, snap) => SnapOk(snap, over, s.lost, s.opt)
    case FetchOpt(over, snap) => SnapOk(snap, over, s.lost, s.opt)
    case ReadTail(mine, over, snap) =>
      mine < s.opt && mine !in s.won && mine !in s.lost && SnapOk(snap, over, s.lost, mine)
    case Claim(mine) => mine in s.won
    case GiveUp(mine) => mine < s.opt && mine !in s.won && mine !in s.lost
    case Have(i) => i < s.head
    case _ => true
  }

  predicate Holds(p: Pc, mine: nat) { (p.ReadTail? || p.GiveUp? || p.Claim?) && p.mine == mine }

  ghost predicate Threads(s: State) {
    && (forall t :: 0 <= t < |s.pcs| ==> ThreadOk(s.pcs[t], s))
    && (forall t, u :: 0 <= t < u < |s.pcs| && (s.pcs[t].ReadTail? || s.pcs[t].GiveUp? || s.pcs[t].Claim?) ==>
          !Holds(s.pcs[u], s.pcs[t].mine))
    && (forall t, u :: 0 <= t < u < |s.pcs| && s.pcs[t].Have? && s.pcs[u].Have? ==> s.pcs[t].i != s.pcs[u].i)
  }

  /** No more attempts have passed than there are elements: the latest one that passed did so against a tail
      it was below, even when counted with all that passed before it and all it knew to have given up. */
  ghost predicate TopOk(s: State) {
    s.won != {} ==>
      && s.top in s.won && Below(s.won, s.top + 1)
      && SnapOk(s.topSnap, |s.topSnap|, s.lost, s.top) && s.top - |s.topSnap| < s.tail
  }

  ghost predicate Inv(s: State) {
    && s.opt == s.head + s.over + CountFlight(s.pcs)
    && |s.won| == s.head + CountClaims(s.pcs) && |s.lost| == s.over
    && s.won !! s.lost && Below(s.won, s.opt) && Below(s.lost, s.opt)
    && Threads(s) && TopOk(s)
  }

  // ---- counting -------------------------------------------------------------------------------

  lemma {:induction false} CountUpdate(pcs: seq<Pc>, t: nat, p: Pc)
    requires t < |pcs|
    ensures CountFlight(pcs[t := p]) == CountFlight(pcs) - InFlight(pcs[t]) + InFlight(p)
    ensures CountClaims(pcs[t := p]) == CountClaims(pcs) - Claiming(pcs[t]) + Claiming(p)
  {
    var pcs' := pcs[t := p];
    if t == 0 {
      assert pcs'[1..] == pcs[1..];
    } else {
      assert pcs'[1..] == pcs[1..][t - 1 := p];
      CountUpdate(pcs[1..], t - 1, p);
    }
  }

  lemma {:induction false} SetBelow(xs: set<nat>, n: nat)
    requires Below(xs, n)
    ensures |xs| <= n
  {
    if n == 0 {
      assert xs == {};
    } else if n - 1 in xs {
      SetBelow(xs - {n - 1}, n - 1);
    } else {
      SetBelow(xs, n - 1);
    }
  }

  lemma TwoSetsBelow(a: set<nat>, b: set<nat>, n: nat)
    requires Below(a, n) && Below(b, n) && a !! b
    ensures |a| + |b| <= n
  {
    assert |a + b| == |a| + |b|;
    SetBelow(a + b, n);
  }

  /** The attempts that passed are no more than the elements published. */
  lemma WonWithinTail(s: State)
    requires TopOk(s) && s.won !! s.lost
    ensures |s.won| <= s.tail
  {
    if s.won != {} {
      TwoSetsBelow(s.won, s.topSnap, s.top + 1);
    }
  }

  // ---- every step keeps the invariant -----------------------------------------------------------

  /** No dequeuer but t has anything to say about attempt number m. */
  ghost predicate Alone(s: State, t: nat, m: nat) {
    forall u :: 0 <= u < |s.pcs| && u != t ==> !Holds(s.pcs[u], m)
  }

  /** What another dequeuer knows survives a step that settles attempt m, which it does not hold. */
  lemma OtherThread(q: Pc, s: State, s': State, m: nat)
    requires ThreadOk(q, s) && s.opt <= s'.opt && s.head <= s'.head && s.lost <= s'.lost && s.won <= s'.won
    requires s'.won <= s.won + {m} && s'.lost <= s.lost + {m}
    requires (s'.won == s.won && s'.lost == s.lost) || !Holds(q, m)
    ensures ThreadOk(q, s')
  {
  }

  lemma KeepThreads(s: State, s': State, t: nat, p: Pc, m: nat)
    requires t < |s.pcs| && s'.pcs == s.pcs[t := p] && Threads(s) && ThreadOk(p, s')
    requires s.opt <= s'.opt && s.head <= s'.head && s.lost <= s'.lost && s.won <= s'.won
    requires s'.won <= s.won + {m} && s'.lost <= s.lost + {m}
    requires (s'.won == s.won && s'.lost == s.lost) || Alone(s, t, m)
    requires p.ReadTail? || p.GiveUp? || p.Claim? ==> p.mine == m && Alone(s, t, m)
    requires p.Have? ==> p.i == s.head
    ensures Threads(s')
  {
    hide SnapOk;
    forall u | 0 <= u < |s'.pcs| ensures ThreadOk(s'.pcs[u], s') {
      if u != t { OtherThread(s.pcs[u], s, s', m); }
    }
    forall u, v | 0 <= u < v < |s'.pcs| && (s'.pcs[u].ReadTail? || s'.pcs[u].GiveUp? || s'.pcs[u].Claim?)
      ensures !Holds(s'.pcs[v], s'.pcs[u].mine)
    {
      assert u != t && v != t ==> !Holds(s.pcs[v], s.pcs[u].mine);
    }
    forall u, v | 0 <= u < v < |s'.pcs| && s'.pcs[u].Have? && s'.pcs[v].Have? ensures s'.pcs[u].i != s'.pcs[v].i {
      assert ThreadOk(s.pcs[u], s) && ThreadOk(s.pcs[v], s);
    }
  }

  lemma HolderAlone(s: State, t: nat)
    requires Threads(s) && t < |s.pcs| && (s.pcs[t].ReadTail? || s.pcs[t].GiveUp? || s.pcs[t].Claim?)
    ensures Alone(s, t, s.pcs[t].mine)
  {
    var m := s.pcs[t].mine;
    forall u | 0 <= u < |s.pcs| && u != t ensures !Holds(s.pcs[u], m) {
      assert u < t && Holds(s.pcs[u], m) ==> !Holds(s.pcs[t], s.pcs[u].mine);
    }
  }

  lemma KeepPublish(s: State)
    requires Inv(s)
    ensures Inv(Publish(s))
  {
    hide SnapOk, Below;
    var s' := Publish(s);
    forall u | 0 <= u < |s'.pcs| ensures ThreadOk(s'.pcs[u], s') {
      assert ThreadOk(s.pcs[u], s);
    }
  }

  /** A dequeuer's step that changes nothing shared. */
  lemma KeepLocal(s: State, t: nat, p: Pc)
    requires Inv(s) && t < |s.pcs| && InFlight(s.pcs[t]) == InFlight(p) == 0 && ThreadOk(p, s) && !p.Have?
    ensures Inv(s.(pcs := s.pcs[t := p]))
  {
    hide Threads, Below;
    var s' := s.(pcs := s.pcs[t := p]);
    CountUpdate(s.pcs, t, p);
    assert Threads(s') by { KeepThreads(s, s', t, p, 0); }
  }

  lemma KeepFetchOpt(s: State, t: nat)
    requires Inv(s) && t < |s.pcs| && s.pcs[t].FetchOpt?
    ensures Inv(FetchOptStep(s, t))
  {
    var s' := FetchOptStep(s, t);
    var p := s'.pcs[t];
    CountUpdate(s.pcs, t, p);
    assert ThreadOk(s.pcs[t], s);
    assert Threads(s') by {
      forall u | 0 <= u < |s.pcs| && u != t ensures !Holds(s.pcs[u], s.opt) {
        assert ThreadOk(s.pcs[u], s);
      }
      assert Alone(s, t, s.opt);
      hide Threads;
      KeepThreads(s, s', t, p, s.opt);
    }
    hide Threads, TopOk;
  }

  lemma KeepTop(s: State, s': State, mine: nat, over: nat, snap: set<nat>)
    requires TopOk(s) && mine !in s.won && SnapOk(snap, over, s.lost, mine) && mine - over < s.tail
    requires s'.won == s.won + {mine} && s'.lost == s.lost && s'.tail == s.tail
    requires var newTop := s.won == {} || s.top < mine;
      s'.top == (if newTop then mine else s.top) && s'.topSnap == (if newTop then snap else s.topSnap)
    ensures TopOk(s')
  {
  }

  lemma KeepReadTail(s: State, t: nat)
    requires Inv(s) && t < |s.pcs| && s.pcs[t].ReadTail?
    ensures Inv(ReadTailStep(s, t))
  {
    var s' := ReadTailStep(s, t);
    var p := s'.pcs[t];
    CountUpdate(s.pcs, t, p);
    assert ThreadOk(s.pcs[t], s);
    HolderAlone(s, t);
    hide Threads, SnapOk, Alone;
    assert Threads(s') by { KeepThreads(s, s', t, p, s.pcs[t].mine); }
    if s.pcs[t].mine - s.pcs[t].over < s.tail {
      KeepTop(s, s', s.pcs[t].mine, s.pcs[t].over, s.pcs[t].snap);
    }
    hide TopOk;
  }

  lemma KeepClaim(s: State, t: nat)
    requires Inv(s) && t < |s.pcs| && s.pcs[t].Claim?
    ensures Inv(ClaimStep(s, t))
  {
    hide Threads, Below, SnapOk;
    var s' := ClaimStep(s, t);
    CountUpdate(s.pcs, t, s'.pcs[t]);
    assert Threads(s') by { KeepThreads(s, s', t, s'.pcs[t], 0); }
  }

  lemma KeepGiveUp(s: State, t: nat)
    requires Inv(s) && t < |s.pcs| && s.pcs[t].GiveUp?
    ensures Inv(GiveUpStep(s, t))
  {
    var s' := GiveUpStep(s, t);
    CountUpdate(s.pcs, t, DIdle);
    assert ThreadOk(s.pcs[t], s);
    HolderAlone(s, t);
    hide Threads, SnapOk, Alone;
    assert Threads(s') by { KeepThreads(s, s', t, DIdle, s.pcs[t].mine); }
    assert SnapOk(s.topSnap, |s.topSnap|, s.lost, s.top) ==> SnapOk(s'.topSnap, |s'.topSnap|, s'.lost, s'.top) by {
      SnapGrows(s.topSnap, |s.topSnap|, s.lost, s'.lost, s.top);
    }
  }

  lemma SnapGrows(snap: set<nat>, over: nat, lost: set<nat>, lost': set<nat>, n: nat)
    requires lost <= lost'
    ensures SnapOk(snap, over, lost, n) ==> SnapOk(snap, over, lost', n)
  {
  }

  lemma KeepFinish(s: State, t: nat)
    requires Inv(s) && t < |s.pcs| && s.pcs[t].Have?
    ensures Inv(Finish(s, t))
  {
    KeepLocal(s, t, DIdle);
  }

  lemma StepKeepsInv(s: State, t: nat)
    requires Inv(s) && t < |s.pcs|
    ensures Inv(Step(s, t))
  {
    assert ThreadOk(s.pcs[t], s);
    match s.pcs[t]
    case DIdle => hide Inv; KeepLocal(s, t, ReadOver(s.tail));
    case ReadOver(tail) =>
      assert SnapOk(s.lost, s.over, s.lost, s.opt);
      hide Inv;
      KeepLocal(s, t, ReadOpt(tail, s.over, s.lost));
    case ReadOpt(_, _, _) => hide Inv; KeepLocal(s, t, ReadOptStep(s, t).pcs[t]);
    case FetchOpt(_, _) => hide Inv; KeepFetchOpt(s, t);
    case ReadTail(_, _, _) => hide Inv; KeepReadTail(s, t);
    case Claim(_) => hide Inv; KeepClaim(s, t);
    case GiveUp(_) => hide Inv; KeepGiveUp(s, t);
    case Have(_) =>
  }

  ghost predicate Initial(s: State) {
    && s.tail == s.head == s.opt == s.over == 0 && s.won == s.lost == {}
    && forall t :: 0 <= t < |s.pcs| ==> s.pcs[t].DIdle?
  }

  lemma {:induction false} NoneInFlight(pcs: seq<Pc>)
    requires forall t :: 0 <= t < |pcs| ==> InFlight(pcs[t]) == 0
    ensures CountFlight(pcs) == CountClaims(pcs) == 0
  {
    if pcs != [] { NoneInFlight(pcs[1..]); }
  }

  lemma InitialInv(s: State)
    requires Initial(s)
    ensures Inv(s)
  {
    NoneInFlight(s.pcs);
  }

  // ---- what holds of every reachable state --------------------------------------------------------

  /** The head never passes the tail, with room for every attempt that has passed the check and has yet to
      claim its index: the source's assertion that the head is not after the tail. */
  lemma HeadWithinTail(s: State)
    requires Inv(s)
    ensures s.head + CountClaims(s.pcs) <= s.tail
  {
    WonWithinTail(s);
  }

  /** The index a dequeuer claims is that of a published element, and nobody else's. */
  lemma ClaimedIndex(s: State, t: nat)
    requires Inv(s) && t < |s.pcs| && s.pcs[t].Claim?
    ensures Step(s, t).pcs[t] == Have(s.head) && s.head < s.tail
    ensures forall u :: 0 <= u < |s.pcs| && s.pcs[u].Have? ==> s.pcs[u].i < s.head
  {
    CountUpdate(s.pcs, t, DIdle);
    HeadWithinTail(s);
    forall u | 0 <= u < |s.pcs| && s.pcs[u].Have? ensures s.pcs[u].i < s.head {
      assert ThreadOk(s.pcs[u], s);
    }
  }

  /** The two comparisons subtract an overcommit count that is never more than what it is taken from. */
  lemma NoUnderflow(s: State, t: nat)
    requires Inv(s) && t < |s.pcs|
    ensures s.pcs[t].ReadOpt? ==> s.pcs[t].over <= s.opt
    ensures s.pcs[t].ReadTail? ==> s.pcs[t].over <= s.pcs[t].mine
  {
    assert ThreadOk(s.pcs[t], s);
    if s.pcs[t].ReadOpt? { SetBelow(s.pcs[t].snap, s.opt); }
    if s.pcs[t].ReadTail? { SetBelow(s.pcs[t].snap, s.pcs[t].mine); }
  }

  /** With no attempt in flight the two counts differ by exactly the number of indices claimed. */
  lemma QuiescentCounts(s: State)
    requires Inv(s) && forall t :: 0 <= t < |s.pcs| ==> InFlight(s.pcs[t]) == 0
    ensures s.opt - s.over == s.head <= s.tail
  {
    NoneInFlight(s.pcs);
    HeadWithinTail(s);
  }

  /** What a refusal means. The first check refuses if and only if the elements found published are no more than
      those claimed, those other attempts are about to claim or to miss, and the attempts that gave up since this one
      loaded the overcommit count; the second one only if those published by then are fewer. */
  lemma RefusalMeansSpokenFor(s: State, t: nat)
    requires Inv(s) && t < |s.pcs|
    ensures s.pcs[t].ReadOpt? ==>
      (ReadOptStep(s, t).pcs[t].DIdle? <==>
         s.pcs[t].tail <= s.head + CountFlight(s.pcs) + (s.over - s.pcs[t].over))
    ensures s.pcs[t].ReadTail? && ReadTailStep(s, t).pcs[t].GiveUp? ==>
      s.tail < s.head + CountFlight(s.pcs) + (s.over - s.pcs[t].over)
  {
    assert ThreadOk(s.pcs[t], s);
  }

  function Steps(s: State, t: nat, n: nat): (r: State)
    requires t < |s.pcs|
    ensures |r.pcs| == |s.pcs|
    decreases n
  {
    if n == 0 then s else Steps(Step(s, t), t, n - 1)
  }

  /** A dequeue that runs while no other attempt is in flight gets the element at the head exactly when there
      is one: a quiescent non-empty producer never refuses. */
  lemma QuiescentNeverRefuses(s: State, t: nat)
    requires Inv(s) && t < |s.pcs| && s.pcs[t].DIdle?
    requires forall u :: 0 <= u < |s.pcs| ==> InFlight(s.pcs[u]) == 0
    ensures s.head < s.tail ==> Steps(s, t, 6).pcs[t] == Have(s.head) && Steps(s, t, 6).head == s.head + 1
    ensures s.head == s.tail ==> Steps(s, t, 3) == s
  {
    QuiescentCounts(s);
    var s1 := Step(s, t);
    var s2 := Step(s1, t);
    var s3 := Step(s2, t);
    assert Steps(s, t, 3) == Steps(s1, t, 2) == Steps(s2, t, 1) == s3;
    if s.head < s.tail {
      var s4 := Step(s3, t);
      var s5 := Step(s4, t);
      var s6 := Step(s5, t);
      assert Steps(s3, t, 3) == Steps(s4, t, 2) == Steps(s5, t, 1) == s6;
      assert Steps(s, t, 6) == Steps(s1, t, 5) == Steps(s2, t, 4) == Steps(s3, t, 3);
    } else {
      assert s3.pcs == s.pcs;
    }
  }

  // ---- what a refusal does not mean ---------------------------------------------------------------

  /** Three steps of dequeuer t. */
  function Thrice(s: State, t: nat): (r: State)
    requires t < |s.pcs|
    ensures |r.pcs| == |s.pcs|
  {
    Step(Step(Step(s, t), t), t)
  }

  /** One element is published, three dequeuers find it; one of them takes it, one gives up, and the last one stands
      still; then another element is published. */
  function Prelude(s: State): (r: State)
    requires 4 <= |s.pcs|
    ensures |r.pcs| == |s.pcs|
  {
    Publish(Thrice(Thrice(Thrice(Thrice(Thrice(Publish(s), 1), 2), 3), 1), 2))
  }

  /** A whole call of dequeuer 0, during which dequeuer 3 goes on. */
  function SpuriousCall(s: State): (r: State)
    requires 4 <= |s.pcs|
    ensures |r.pcs| == |s.pcs|
  {
    Step(Thrice(Step(Step(s, 0), 0), 3), 0)
  }

  lemma FindsOne(s: State, t: nat)
    requires t < |s.pcs| && s.pcs[t].DIdle? && s.opt - s.over < s.tail
    ensures Thrice(s, t) == s.(pcs := s.pcs[t := FetchOpt(s.over, s.lost)])
  {
  }

  /** A dequeuer that has found something: it claims, or misses and gives up. */
  lemma GoesOn(s: State, t: nat, over: nat, snap: set<nat>)
    requires t < |s.pcs| && s.pcs[t] == FetchOpt(over, snap)
    ensures var r := Thrice(s, t);
      && r.tail == s.tail && r.opt == s.opt + 1
      && if s.opt - over < s.tail then r.head == s.head + 1 && r.over == s.over && r.pcs == s.pcs[t := Have(s.head)]
         else r.head == s.head && r.over == s.over + 1 && r.pcs == s.pcs[t := DIdle]
  {
  }

  lemma AfterPrelude(s0: State)
    requires Initial(s0) && 4 <= |s0.pcs|
    ensures var s := Prelude(s0);
      && s.tail == 2 && s.head == 1 && s.opt == 2 && s.over == 1
      && s.pcs[0].DIdle? && s.pcs[3] == FetchOpt(0, {})
  {
    hide Thrice, Step;
    var s1 := Publish(s0);
    FindsOne(s1, 1);
    var s2 := Thrice(s1, 1);
    FindsOne(s2, 2);
    var s3 := Thrice(s2, 2);
    FindsOne(s3, 3);
    var s4 := Thrice(s3, 3);
    GoesOn(s4, 1, 0, {});
    GoesOn(Thrice(s4, 1), 2, 0, {});
  }

  /** With other attempts in flight, a dequeue may refuse although an element is there from its start to its end and
      nobody takes it: an overcommit count that was loaded long ago makes another attempt fail, and that makes the
      count this call has loaded too small. */
  lemma RefusesThoughThere(s0: State)
    requires Initial(s0) && 4 <= |s0.pcs|
    ensures var s := Prelude(s0); var e := SpuriousCall(s);
      s.pcs[0].DIdle? && e.pcs[0].DIdle? && s.head == e.head == 1 && s.tail == e.tail == 2
  {
    AfterPrelude(s0);
    hide Prelude, Thrice;
    var s := Prelude(s0);
    var s1 := Step(Step(s, 0), 0);
    GoesOn(s1, 3, 0, {});
  }
}
