/** The map from threads to their implicit producers (concurrentqueue.h, get_or_add_implicit_producer): hash
    tables with linear probing, chained from the newest to the oldest, grown under a try-lock and filled
    lazily, for any number of threads. A step is one access to a shared variable; a slot's value, read and
    written only by the thread whose key it is, belongs to the step on the key. */
module ProducerHash {
  import opened Modulo

  const EMPTY: int := -1
  const NONE: int := -1

  /** `dist[x]` is how many probes away from its thread's hash slot x lies (bookkeeping). */
  datatype Table = Table(keys: seq<int>, vals: seq<nat>, dist: seq<nat>)

  datatype Pc =
    | Idle
    | LoadMain                               // load implicitProducerHash
    | Probe(main: nat, tab: nat, k: nat)     // load a key, looking for our own
    | Move(main: nat, k: nat, v: nat)        // found in an older table: load a key of the main one
    | MoveCas(main: nat, k: nat, v: nat)     // CAS that key from empty to ours
    | Count(main: nat)                       // not found: fetch_add implicitProducerHashCount
    | TryLock(main: nat, n: int)             // test_and_set implicitProducerHashResizeInProgress
    | Reload(n: int)                         // load implicitProducerHash again
    | Alloc(main: nat, n: int)               // allocate a bigger table and publish it
    | AllocFail                              // fetch_sub the count, then release and give up
    | FailUnlock
    | Unlock(main: nat, n: int)
    | Create(main: nat, n: int)              // make a producer
    | CreateFail                             // fetch_sub the count and give up
    | Insert(main: nat, k: nat, p: nat)      // load a key of the main table
    | InsertCas(main: nat, k: nat, p: nat)   // CAS it from empty to ours
    | Wait(n: int)                           // somebody else is growing the table: load it again
    | Done(v: nat)

  /** Threads are numbered and a thread's number is its id. Bookkeeping: `holder` of the resize lock, `regs`
      the threads counted (in the order of their fetch_add), `num[t]` the count thread t got, `mine[t]` the
      producer thread t has registered and `home[t]` the table and slot it first did so in. */
  datatype State = State(
    tables: seq<Table>, count: int, locked: bool, made: nat, pcs: seq<Pc>, hash: seq<nat>,
    holder: nat, regs: seq<int>, num: seq<int>, mine: seq<int>, home: seq<(nat, nat)>)

  function Cap(t: Table): nat { |t.keys| }

  function Slot(h: nat, k: nat, cap: nat): (r: nat)
    requires 0 < cap
    ensures r < cap
  {
    (h + k) % cap
  }

  /** Up to three quarters of the capacity a thread may still insert. */
  function Limit(cap: nat): nat { cap / 2 + cap / 4 }

  function NewCapacity(n: int, cap: nat): (r: nat)
    requires 0 < cap
    ensures cap <= r && n < r / 2 && (r == cap || r / 2 / 2 <= n)
    decreases if cap / 2 <= n then 2 * n + 2 - cap else 0
  {
    if cap / 2 <= n then NewCapacity(n, 2 * cap) else cap
  }

  predicate TableOk(t: Table) { 0 < Cap(t) && |t.vals| == |t.dist| == |t.keys| }

  predicate Sized(s: State) {
    && |s.pcs| == |s.hash| == |s.num| == |s.mine| == |s.home| && s.tables != []
    && forall j :: 0 <= j < |s.tables| ==> TableOk(s.tables[j])
  }

  function MainOf(p: Pc): nat {
    match p
    case Probe(m, _, _) => m
    case Move(m, _, _) => m
    case MoveCas(m, _, _) => m
    case Count(m) => m
    case TryLock(m, _) => m
    case Alloc(m, _) => m
    case Unlock(m, _) => m
    case Create(m, _) => m
    case Insert(m, _, _) => m
    case InsertCas(m, _, _) => m
    case _ => 0
  }

  predicate InRange(s: State, t: nat) {
    Sized(s) && t < |s.pcs| && MainOf(s.pcs[t]) < |s.tables| && (s.pcs[t].Probe? ==> s.pcs[t].tab < |s.tables|)
  }

  // ---- steps ----------------------------------------------------------------------------------

  function Key(s: State, j: nat, t: nat, k: nat): int
    requires Sized(s) && t < |s.pcs| && j < |s.tables|
  {
    s.tables[j].keys[Slot(s.hash[t], k, Cap(s.tables[j]))]
  }

  function Go(s: State, t: nat, p: Pc): State
    requires t < |s.pcs|
  {
    s.(pcs := s.pcs[t := p])
  }

  function ProbeStep(s: State, t: nat): State
    requires InRange(s, t) && s.pcs[t].Probe?
  {
    var p := s.pcs[t];
    var key := Key(s, p.tab, t, p.k);
    var v := s.tables[p.tab].vals[Slot(s.hash[t], p.k, Cap(s.tables[p.tab]))];
    Go(s, t, if key == t then (if p.tab == p.main then Done(v) else Move(p.main, 0, v))
             else if key != EMPTY then Probe(p.main, p.tab, p.k + 1)
             else if p.tab == 0 then Count(p.main)
             else Probe(p.main, p.tab - 1, 0))
  }

  /** The table with thread t in the slot k probes on. */
  function Put(tb: Table, h: nat, k: nat, t: nat, v: nat): Table
    requires TableOk(tb)
  {
    var x := Slot(h, k, Cap(tb));
    Table(tb.keys[x := t], tb.vals[x := v], tb.dist[x := k])
  }

  function MoveStep(s: State, t: nat): State
    requires InRange(s, t) && s.pcs[t].Move?
  {
    var p := s.pcs[t];
    Go(s, t, if Key(s, p.main, t, p.k) == EMPTY then MoveCas(p.main, p.k, p.v) else Move(p.main, p.k + 1, p.v))
  }

  function MoveCasStep(s: State, t: nat): State
    requires InRange(s, t) && s.pcs[t].MoveCas?
  {
    var p := s.pcs[t];
    if Key(s, p.main, t, p.k) == EMPTY
    then s.(tables := s.tables[p.main := Put(s.tables[p.main], s.hash[t], p.k, t, p.v)], pcs := s.pcs[t := Done(p.v)])
    else Go(s, t, Move(p.main, p.k + 1, p.v))
  }

  /** The test that closes the loop body: insert, or wait for the thread that is growing the table. */
  function Check(s: State, main: nat, n: int): Pc
    requires main < |s.tables|
  {
    if n < Limit(Cap(s.tables[main])) then Create(main, n) else Wait(n)
  }

  function Decide(s: State, main: nat, n: int): Pc
    requires main < |s.tables|
  {
    if Cap(s.tables[main]) / 2 <= n then TryLock(main, n) else Check(s, main, n)
  }

  function CountStep(s: State, t: nat): State
    requires InRange(s, t) && s.pcs[t].Count?
  {
    var n := s.count + 1;
    s.(count := s.count + 1, pcs := s.pcs[t := Decide(s, s.pcs[t].main, n)], regs := s.regs + [t], num := s.num[t := n])
  }

  function TryLockStep(s: State, t: nat): State
    requires InRange(s, t) && s.pcs[t].TryLock?
  {
    var p := s.pcs[t];
    if s.locked then Go(s, t, Check(s, p.main, p.n))
    else s.(locked := true, holder := t, pcs := s.pcs[t := Reload(p.n)])
  }

  function ReloadStep(s: State, t: nat): State
    requires InRange(s, t) && s.pcs[t].Reload?
  {
    var m, n := |s.tables| - 1, s.pcs[t].n;
    Go(s, t, if Cap(s.tables[m]) / 2 <= n then Alloc(m, n) else Unlock(m, n))
  }

  function EmptyTable(cap: nat): Table { Table(seq(cap, i => EMPTY), seq(cap, i => 0), seq(cap, i => 0)) }

  function AllocStep(s: State, t: nat, ok: bool): State
    requires InRange(s, t) && s.pcs[t].Alloc?
  {
    var p := s.pcs[t];
    if !ok then Go(s, t, AllocFail)
    else s.(tables := s.tables + [EmptyTable(NewCapacity(p.n, 2 * Cap(s.tables[p.main])))],
            pcs := s.pcs[t := Unlock(|s.tables|, p.n)])
  }

  function Without(regs: seq<int>, t: nat): seq<int> {
    if regs == [] then [] else if regs[0] == t then regs[1..] else [regs[0]] + Without(regs[1..], t)
  }

  function Uncount(s: State, t: nat, p: Pc): State
    requires t < |s.pcs|
  {
    s.(count := s.count - 1, pcs := s.pcs[t := p], regs := Without(s.regs, t))
  }

  function UnlockStep(s: State, t: nat): State
    requires InRange(s, t) && s.pcs[t].Unlock?
  {
    s.(locked := false, pcs := s.pcs[t := Check(s, s.pcs[t].main, s.pcs[t].n)])
  }

  function CreateStep(s: State, t: nat, ok: bool): State
    requires InRange(s, t) && s.pcs[t].Create?
  {
    if ok then s.(made := s.made + 1, pcs := s.pcs[t := Insert(s.pcs[t].main, 0, s.made)]) else Go(s, t, CreateFail)
  }

  function InsertStep(s: State, t: nat): State
    requires InRange(s, t) && s.pcs[t].Insert?
  {
    var p := s.pcs[t];
    Go(s, t, if Key(s, p.main, t, p.k) == EMPTY then InsertCas(p.main, p.k, p.p) else Insert(p.main, p.k + 1, p.p))
  }

  function InsertCasStep(s: State, t: nat): State
    requires InRange(s, t) && s.pcs[t].InsertCas?
  {
    var p := s.pcs[t];
    if Key(s, p.main, t, p.k) == EMPTY
    then s.(tables := s.tables[p.main := Put(s.tables[p.main], s.hash[t], p.k, t, p.p)], pcs := s.pcs[t := Done(p.p)],
            mine := s.mine[t := p.p], home := s.home[t := (p.main, Slot(s.hash[t], p.k, Cap(s.tables[p.main])))])
    else Go(s, t, Insert(p.main, p.k + 1, p.p))
  }

  /** One step of thread t; `ok` says whether the allocation of the step succeeds. */
  function Step(s: State, t: nat, ok: bool): State
    requires InRange(s, t)
  {
    match s.pcs[t]
    case Idle => Go(s, t, LoadMain)
    case LoadMain => Go(s, t, Probe(|s.tables| - 1, |s.tables| - 1, 0))
    case Probe(_, _, _) => ProbeStep(s, t)
    case Move(_, _, _) => MoveStep(s, t)
    case MoveCas(_, _, _) => MoveCasStep(s, t)
    case Count(_) => CountStep(s, t)
    case TryLock(_, _) => TryLockStep(s, t)
    case Reload(_) => ReloadStep(s, t)
    case Alloc(_, _) => AllocStep(s, t, ok)
    case AllocFail => Uncount(s, t, FailUnlock)
    case FailUnlock => s.(locked := false, pcs := s.pcs[t := Idle])
    case Unlock(_, _) => UnlockStep(s, t)
    case Create(_, _) => CreateStep(s, t, ok)
    case CreateFail => Uncount(s, t, Idle)
    case Insert(_, _, _) => InsertStep(s, t)
    case InsertCas(_, _, _) => InsertCasStep(s, t)
    case Wait(n) => Go(s, t, Decide(s, |s.tables| - 1, n))
    case Done(_) => Go(s, t, Idle)
  }

  // ---- invariant ------------------------------------------------------------------------------

  /** The first k slots probed for hash h are taken. */
  ghost predicate Passed(tb: Table, h: nat, k: nat)
    requires TableOk(tb)
  {
    forall e: nat :: e < k ==> tb.keys[Slot(h, e, Cap(tb))] != EMPTY
  }

  /** None of them is thread t's. */
  ghost predicate Missed(tb: Table, h: nat, k: nat, t: nat)
    requires TableOk(tb)
  {
    forall e: nat :: e < k ==> tb.keys[Slot(h, e, Cap(tb))] != t
  }

  predicate Free(tb: Table, x: nat) { x < |tb.keys| && tb.keys[x] == EMPTY }

  /** Thread t is not in the table. */
  ghost predicate Absent(tb: Table, t: nat) { forall x :: 0 <= x < |tb.keys| ==> tb.keys[x] != t }

  /** A taken slot holds a registered thread counted early enough for this table, its producer, and is where
      probing for it ends. */
  ghost predicate SlotOk(tb: Table, x: nat, s: State)
    requires TableOk(tb) && x < |tb.keys| && Sized(s)
  {
    var t := tb.keys[x];
    t != EMPTY ==>
      && 0 <= t < |s.pcs| && s.mine[t] == tb.vals[x] && t in s.regs && s.num[t] < Limit(Cap(tb))
      && x == Slot(s.hash[t], tb.dist[x], Cap(tb)) && Passed(tb, s.hash[t], tb.dist[x])
  }

  ghost predicate Distinct(keys: seq<int>) {
    forall x, y :: 0 <= x < y < |keys| && keys[x] != EMPTY ==> keys[x] != keys[y]
  }

  ghost predicate Tables(s: State)
    requires Sized(s)
  {
    && (forall j, x :: 0 <= j < |s.tables| && 0 <= x < |s.tables[j].keys| ==> SlotOk(s.tables[j], x, s))
    && (forall j :: 0 <= j < |s.tables| ==> Distinct(s.tables[j].keys))
    && (forall i, j :: 0 <= i < j < |s.tables| ==> Cap(s.tables[i]) <= Cap(s.tables[j]))
  }

  predicate Counted(p: Pc) {
    p.TryLock? || p.Reload? || p.Alloc? || p.AllocFail? || p.Unlock? || p.Create? || p.CreateFail? || p.Insert?
    || p.InsertCas? || p.Wait?
  }

  predicate Locking(p: Pc) { p.Reload? || p.Alloc? || p.AllocFail? || p.FailUnlock? || p.Unlock? }

  /** Threads counted are those registered and those about to be, each at most once, and no thread's count is
      below its place among them: a failed thread only moves the later ones forward. */
  ghost predicate Regs(s: State)
    requires Sized(s)
  {
    && |s.regs| == s.count
    && (forall p :: 0 <= p < |s.regs| ==> 0 <= s.regs[p] < |s.pcs| && p < s.num[s.regs[p]])
    && (forall p, q :: 0 <= p < q < |s.regs| ==> s.regs[p] != s.regs[q])
    && (forall t :: 0 <= t < |s.pcs| && t in s.regs ==> s.mine[t] != NONE || Counted(s.pcs[t]))
  }

  ghost predicate HomeOk(s: State, t: nat)
    requires Sized(s) && t < |s.pcs|
  {
    s.mine[t] == NONE ||
      (0 <= s.mine[t] < s.made && s.home[t].0 < |s.tables| && s.home[t].1 < Cap(s.tables[s.home[t].0])
       && s.tables[s.home[t].0].keys[s.home[t].1] == t)
  }

  /** What thread t has found out so far. */
  ghost predicate PcOk(p: Pc, t: nat, s: State)
    requires Sized(s) && t < |s.pcs|
  {
    && (Locking(p) ==> s.locked && s.holder == t)
    && (Counted(p) ==> s.mine[t] == NONE && t in s.regs)
    && match p
       case Probe(main, tab, k) =>
         && tab <= main < |s.tables| && k < Cap(s.tables[tab]) && Passed(s.tables[tab], s.hash[t], k)
         && Missed(s.tables[tab], s.hash[t], k, t)
         && (s.mine[t] != NONE ==> s.home[t].0 <= tab)
         && (forall j :: tab < j <= main ==> Absent(s.tables[j], t))
       case Move(main, k, v) =>
         && main < |s.tables| && k < Cap(s.tables[main]) && Passed(s.tables[main], s.hash[t], k)
         && s.mine[t] == v && t in s.regs && s.num[t] < Limit(Cap(s.tables[main])) && Absent(s.tables[main], t)
       case MoveCas(main, k, v) =>
         && main < |s.tables| && k < Cap(s.tables[main]) && Passed(s.tables[main], s.hash[t], k)
         && s.mine[t] == v && t in s.regs && s.num[t] < Limit(Cap(s.tables[main])) && Absent(s.tables[main], t)
       case Count(main) => main < |s.tables| && s.mine[t] == NONE
       case TryLock(main, n) => main < |s.tables| && n == s.num[t]
       case Reload(n) => n == s.num[t]
       case Alloc(main, n) => main == |s.tables| - 1 && n == s.num[t]
       case Unlock(main, n) => main < |s.tables| && n == s.num[t]
       case Create(main, n) => main < |s.tables| && n == s.num[t] < Limit(Cap(s.tables[main]))
       case Insert(main, k, v) =>
         && main < |s.tables| && k < Cap(s.tables[main]) && Passed(s.tables[main], s.hash[t], k)
         && s.num[t] < Limit(Cap(s.tables[main])) && v < s.made
       case InsertCas(main, k, v) =>
         && main < |s.tables| && k < Cap(s.tables[main]) && Passed(s.tables[main], s.hash[t], k)
         && s.num[t] < Limit(Cap(s.tables[main])) && v < s.made
       case Wait(n) => n == s.num[t]
       case Done(v) => s.mine[t] == v
       case FailUnlock => s.mine[t] == NONE
       case _ => true
  }

  ghost predicate Threads(s: State)
    requires Sized(s)
  {
    forall t :: 0 <= t < |s.pcs| ==> PcOk(s.pcs[t], t, s) && HomeOk(s, t)
  }

  /** The producer a thread has, or is about to register. */
  function Holding(p: Pc, mine: int): int { if p.Insert? || p.InsertCas? then p.p else mine }

  ghost predicate Producers(s: State)
    requires Sized(s)
  {
    && (forall t :: 0 <= t < |s.pcs| ==> Holding(s.pcs[t], s.mine[t]) < s.made)
    && (forall t, u :: 0 <= t < u < |s.pcs| && Holding(s.pcs[t], s.mine[t]) != NONE ==>
          Holding(s.pcs[t], s.mine[t]) != Holding(s.pcs[u], s.mine[u]))
  }

  ghost predicate Inv(s: State) {
    Sized(s) && Tables(s) && Regs(s) && Threads(s) && Producers(s)
  }

  // ---- a free slot is left --------------------------------------------------------------------

  /** Every slot is among the first `cap` probed. */
  lemma Covered(h: nat, x: nat, cap: nat) returns (e: nat)
    requires x < cap
    ensures e < cap && Slot(h, e, cap) == x
  {
    e := (x - h) % cap;
    ModAdd(x - h, h, cap);
    Unique(x, cap, 0, x);
  }

  ghost function Elements(xs: seq<int>): set<int> { set x | x in xs }

  lemma {:induction false} ElementsBound(xs: seq<int>)
    ensures |Elements(xs)| <= |xs|
  {
    if xs != [] {
      ElementsBound(xs[1..]);
      assert Elements(xs) == {xs[0]} + Elements(xs[1..]);
    }
  }

  lemma {:induction false} DistinctBound(keys: seq<int>, among: set<int>)
    requires forall x, y :: 0 <= x < y < |keys| ==> keys[x] != keys[y]
    requires forall x :: 0 <= x < |keys| ==> keys[x] in among
    ensures |keys| <= |among|
  {
    if keys != [] {
      DistinctBound(keys[1..], among - {keys[0]});
    }
  }

  /** A table that gave every slot to a thread would have taken in one counted too late for it. */
  lemma NotFull(s: State, j: nat, h: nat, k: nat)
    requires Sized(s) && Tables(s) && Regs(s) && j < |s.tables| && Passed(s.tables[j], h, k)
    ensures k < Cap(s.tables[j])
  {
    var tb := s.tables[j];
    var cap := Cap(tb);
    if cap <= k {
      forall x | 0 <= x < cap ensures tb.keys[x] != EMPTY {
        var e := Covered(h, x, cap);
      }
      hide Passed;
      var early := if Limit(cap) == 0 then 0 else if |s.regs| < Limit(cap) - 1 then |s.regs| else Limit(cap) - 1;
      forall x | 0 <= x < cap ensures tb.keys[x] in Elements(s.regs[..early]) {
        assert SlotOk(tb, x, s);
        var p :| 0 <= p < |s.regs| && s.regs[p] == tb.keys[x];
        assert s.regs[..early][p] == tb.keys[x];
      }
      DistinctBound(tb.keys, Elements(s.regs[..early]));
      ElementsBound(s.regs[..early]);
    }
  }

  // ---- frames -----------------------------------------------------------------------------------

  /** The table has only gained entries of thread t. */
  ghost predicate Gained(tb: Table, tb': Table, t: nat) {
    && |tb'.keys| == |tb.keys|
    && forall x :: 0 <= x < |tb.keys| ==> tb'.keys[x] == tb.keys[x] || (tb.keys[x] == EMPTY && tb'.keys[x] == t)
  }

  lemma PassedGained(tb: Table, tb': Table, t: nat, h: nat, k: nat)
    requires TableOk(tb) && TableOk(tb') && Gained(tb, tb', t) && Passed(tb, h, k)
    ensures Passed(tb', h, k)
  {
  }

  /** What thread t's step leaves alone. */
  ghost predicate OtherwiseSame(s: State, s': State, t: nat)
    requires Sized(s) && Sized(s')
  {
    && |s'.pcs| == |s.pcs| && s'.hash == s.hash && |s.tables| <= |s'.tables| && s.made <= s'.made
    && (forall u :: 0 <= u < |s.pcs| && u != t ==>
          s'.pcs[u] == s.pcs[u] && s'.mine[u] == s.mine[u] && s'.home[u] == s.home[u] && s'.num[u] == s.num[u]
          && (u in s.regs ==> u in s'.regs))
    && (forall j :: 0 <= j < |s.tables| ==> Gained(s.tables[j], s'.tables[j], t))
    && (s.locked && s.holder != t ==> s'.locked && s'.holder == s.holder && |s'.tables| == |s.tables|)
  }

  lemma OtherThread(s: State, s': State, t: nat, u: nat)
    requires Sized(s) && Sized(s') && OtherwiseSame(s, s', t) && u < |s.pcs| && u != t
    requires PcOk(s.pcs[u], u, s) && HomeOk(s, u)
    ensures PcOk(s'.pcs[u], u, s') && HomeOk(s', u)
  {
    match s.pcs[u]
    case Probe(_, tab, k) => PassedGained(s.tables[tab], s'.tables[tab], t, s.hash[u], k);
    case Move(main, k, _) => PassedGained(s.tables[main], s'.tables[main], t, s.hash[u], k);
    case MoveCas(main, k, _) => PassedGained(s.tables[main], s'.tables[main], t, s.hash[u], k);
    case Insert(main, k, _) => PassedGained(s.tables[main], s'.tables[main], t, s.hash[u], k);
    case InsertCas(main, k, _) => PassedGained(s.tables[main], s'.tables[main], t, s.hash[u], k);
    case _ =>
  }

  lemma KeepThreads(s: State, s': State, t: nat)
    requires Sized(s) && Sized(s') && OtherwiseSame(s, s', t) && Threads(s) && t < |s.pcs|
    requires PcOk(s'.pcs[t], t, s') && HomeOk(s', t)
    ensures Threads(s')
  {
    assert |s'.pcs| == |s.pcs|;
    hide PcOk, HomeOk, OtherwiseSame;
    forall u | 0 <= u < |s'.pcs| ensures PcOk(s'.pcs[u], u, s') && HomeOk(s', u) {
      if u != t { OtherThread(s, s', t, u); }
    }
  }

  lemma KeepProducers(s: State, s': State, t: nat)
    requires Sized(s) && Sized(s') && |s'.pcs| == |s.pcs| && Producers(s) && t < |s.pcs| && s.made <= s'.made
    requires forall u :: 0 <= u < |s.pcs| && u != t ==> s'.pcs[u] == s.pcs[u] && s'.mine[u] == s.mine[u]
    requires var h, h' := Holding(s.pcs[t], s.mine[t]), Holding(s'.pcs[t], s'.mine[t]);
      h' == h || h' == NONE || h' == s.made < s'.made
    ensures Producers(s')
  {
  }

  /** Slots keep their meaning when their threads keep their place, their count and their producer. */
  lemma KeepSlots(s: State, s': State)
    requires Sized(s) && Sized(s') && Tables(s) && s'.tables == s.tables && |s'.pcs| == |s.pcs| && s'.hash == s.hash
    requires forall u :: 0 <= u < |s.pcs| && s.mine[u] != NONE ==>
      s'.mine[u] == s.mine[u] && s'.num[u] == s.num[u] && (u in s.regs ==> u in s'.regs)
    ensures Tables(s')
  {
    forall j, x | 0 <= j < |s'.tables| && 0 <= x < |s'.tables[j].keys| ensures SlotOk(s'.tables[j], x, s') {
      assert SlotOk(s.tables[j], x, s);
    }
  }

  // ---- steps that change no table -----------------------------------------------------------------

  lemma KeepGo(s: State, t: nat, p: Pc)
    requires Inv(s) && t < |s.pcs| && PcOk(p, t, s) && Holding(p, s.mine[t]) == Holding(s.pcs[t], s.mine[t])
    requires t in s.regs ==> s.mine[t] != NONE || Counted(p)
    ensures Inv(Go(s, t, p))
  {
    var s' := Go(s, t, p);
    hide Passed, Absent;
    assert Tables(s') by { hide Regs, Threads, Producers; KeepSlots(s, s'); }
    hide Tables;
    assert Threads(s') by { hide Producers; KeepThreads(s, s', t); }
    assert Producers(s') by { hide Threads, PcOk; KeepProducers(s, s', t); }
    hide Threads, Producers, PcOk;
  }

  lemma HasHome(s: State, t: nat)
    requires Inv(s) && t < |s.pcs| && s.mine[t] != NONE
    ensures var (j, x) := s.home[t];
      j < |s.tables| && x < Cap(s.tables[j]) && s.tables[j].keys[x] == t && SlotOk(s.tables[j], x, s)
    ensures t in s.regs
  {
    assert HomeOk(s, t);
  }

  lemma ThreadFacts(s: State, t: nat)
    requires Inv(s) && t < |s.pcs|
    ensures Sized(s) && Tables(s) && Regs(s) && Threads(s) && Producers(s)
    ensures PcOk(s.pcs[t], t, s) && HomeOk(s, t) && Holding(s.pcs[t], s.mine[t]) < s.made
    ensures t in s.regs ==> s.mine[t] != NONE || Counted(s.pcs[t])
  {
    hide Tables, PcOk, HomeOk;
  }

  lemma KeepLoadMain(s: State, t: nat)
    requires Inv(s) && t < |s.pcs| && s.pcs[t].LoadMain?
    ensures Inv(Step(s, t, true)) && InRange(s, t)
  {
    hide Inv, Tables, Threads, Producers, Regs;
    ThreadFacts(s, t);
    var m := |s.tables| - 1;
    if s.mine[t] != NONE { HasHome(s, t); }
    assert PcOk(Probe(m, m, 0), t, s);
    hide PcOk;
    KeepGo(s, t, Probe(m, m, 0));
  }

  /** One more taken slot passed, and there are more to come. */
  lemma PassOne(s: State, j: nat, h: nat, k: nat)
    requires Sized(s) && Tables(s) && Regs(s) && j < |s.tables| && Passed(s.tables[j], h, k) && k < Cap(s.tables[j])
    requires s.tables[j].keys[Slot(h, k, Cap(s.tables[j]))] != EMPTY
    ensures Passed(s.tables[j], h, k + 1) && k + 1 < Cap(s.tables[j])
  {
    assert Passed(s.tables[j], h, k + 1) by { hide Tables, Regs; }
    hide Passed;
    NotFull(s, j, h, k + 1);
  }

  /** Probing for thread t reaches its entry before any empty slot, so an empty slot means it is not there. */
  lemma StopMeansAbsent(s: State, j: nat, t: nat, k: nat)
    requires Sized(s) && Tables(s) && j < |s.tables| && t < |s.pcs| && Key(s, j, t, k) == EMPTY
    requires Missed(s.tables[j], s.hash[t], k, t)
    ensures Absent(s.tables[j], t)
  {
    forall x | 0 <= x < |s.tables[j].keys| ensures s.tables[j].keys[x] != t {
      assert SlotOk(s.tables[j], x, s);
    }
  }

  lemma ProbeFacts(s: State, t: nat)
    requires Inv(s) && InRange(s, t) && s.pcs[t].Probe?
    ensures PcOk(ProbeStep(s, t).pcs[t], t, s) && (t in s.regs ==> s.mine[t] != NONE)
    ensures Holding(ProbeStep(s, t).pcs[t], s.mine[t]) == Holding(s.pcs[t], s.mine[t])
  {
    var p, p' := s.pcs[t], ProbeStep(s, t).pcs[t];
    assert PcOk(p, t, s) && HomeOk(s, t);
    var key := Key(s, p.tab, t, p.k);
    var x := Slot(s.hash[t], p.k, Cap(s.tables[p.tab]));
    if key == t {
      assert SlotOk(s.tables[p.tab], x, s);
      assert Cap(s.tables[p.tab]) <= Cap(s.tables[p.main]);
      hide Tables, Threads, Producers;
    } else if key != EMPTY {
      PassOne(s, p.tab, s.hash[t], p.k);
      hide Tables, Threads, Producers;
    } else {
      StopMeansAbsent(s, p.tab, t, p.k);
      assert s.mine[t] != NONE ==> s.home[t].0 < p.tab;
      hide Tables, Threads, Producers;
    }
  }

  lemma KeepProbe(s: State, t: nat)
    requires Inv(s) && InRange(s, t) && s.pcs[t].Probe?
    ensures Inv(ProbeStep(s, t))
  {
    hide Inv, PcOk;
    ProbeFacts(s, t);
    KeepGo(s, t, ProbeStep(s, t).pcs[t]);
  }

  lemma KeepMove(s: State, t: nat)
    requires Inv(s) && InRange(s, t) && s.pcs[t].Move?
    ensures Inv(MoveStep(s, t))
  {
    var p, p' := s.pcs[t], MoveStep(s, t).pcs[t];
    assert PcOk(p, t, s) && HomeOk(s, t);
    if Key(s, p.main, t, p.k) != EMPTY { PassOne(s, p.main, s.hash[t], p.k); }
    assert PcOk(p', t, s) by { hide Tables, Threads, Producers; }
    assert t in s.regs ==> s.mine[t] != NONE;
    hide Inv, PcOk;
    KeepGo(s, t, p');
  }

  lemma KeepInsert(s: State, t: nat)
    requires Inv(s) && InRange(s, t) && s.pcs[t].Insert?
    ensures Inv(InsertStep(s, t))
  {
    var p, p' := s.pcs[t], InsertStep(s, t).pcs[t];
    assert PcOk(p, t, s);
    if Key(s, p.main, t, p.k) != EMPTY { PassOne(s, p.main, s.hash[t], p.k); }
    assert PcOk(p', t, s) by { hide Tables, Threads, Producers; }
    hide Inv, PcOk;
    KeepGo(s, t, p');
  }

  // ---- steps that fill a slot -----------------------------------------------------------------------

  lemma KeepTablesPut(s: State, s': State, t: nat, m: nat, k: nat, v: nat)
    requires Sized(s) && Sized(s') && Tables(s) && t < |s.pcs| == |s'.pcs| && m < |s.tables| && s'.hash == s.hash
    requires s'.tables == s.tables[m := Put(s.tables[m], s.hash[t], k, t, v)] && s'.regs == s.regs && s'.num == s.num
    requires Key(s, m, t, k) == EMPTY && Passed(s.tables[m], s.hash[t], k) && Absent(s.tables[m], t)
    requires t in s.regs && s.num[t] < Limit(Cap(s.tables[m])) && s'.mine == s.mine[t := v]
        && (s.mine[t] == v || s.mine[t] == NONE)
    ensures Tables(s') && Gained(s.tables[m], s'.tables[m], t)
  {
    var tb, tb' := s.tables[m], s'.tables[m];
    assert Gained(tb, tb', t);
    forall j, x | 0 <= j < |s'.tables| && 0 <= x < |s'.tables[j].keys| ensures SlotOk(s'.tables[j], x, s') {
      assert SlotOk(s.tables[j], x, s);
      if j == m {
        PassedGained(tb, tb', t, s.hash[t], k);
        if 0 <= tb.keys[x] < |s.pcs| { PassedAt(tb, tb', t, s, x); }
      }
    }
  }

  lemma PassedAt(tb: Table, tb': Table, t: nat, s: State, x: nat)
    requires Sized(s) && TableOk(tb) && TableOk(tb') && Gained(tb, tb', t) && x < |tb.keys| && 0 <= tb.keys[x] < |s.pcs|
    requires SlotOk(tb, x, s)
    ensures Passed(tb', s.hash[tb.keys[x]], tb.dist[x])
  {
    PassedGained(tb, tb', t, s.hash[tb.keys[x]], tb.dist[x]);
  }

  lemma KeepMoveCas(s: State, t: nat)
    requires Inv(s) && InRange(s, t) && s.pcs[t].MoveCas?
    ensures Inv(MoveCasStep(s, t))
  {
    hide Inv, MoveCasStep;
    ThreadFacts(s, t);
    hide PcOk;
    if Key(s, s.pcs[t].main, t, s.pcs[t].k) != EMPTY { KeepMoveOn(s, t); } else { KeepMoved(s, t); }
  }

  lemma KeepMoveOn(s: State, t: nat)
    requires Inv(s) && InRange(s, t) && s.pcs[t].MoveCas?
    requires Key(s, s.pcs[t].main, t, s.pcs[t].k) != EMPTY
    ensures Inv(MoveCasStep(s, t))
  {
    hide Inv, Tables, Threads, Producers, Regs, Passed, Absent;
    ThreadFacts(s, t);
    var p := s.pcs[t];
    PassOne(s, p.main, s.hash[t], p.k);
    var p' := Move(p.main, p.k + 1, p.v);
    assert PcOk(p', t, s);
    hide PcOk;
    KeepGo(s, t, p');
  }

  lemma KeepMoved(s: State, t: nat)
    requires Inv(s) && InRange(s, t) && s.pcs[t].MoveCas?
    requires Key(s, s.pcs[t].main, t, s.pcs[t].k) == EMPTY
    ensures Inv(MoveCasStep(s, t))
  {
    hide Tables, Threads, Producers, Regs, Passed, Absent;
    ThreadFacts(s, t);
    var p, s' := s.pcs[t], MoveCasStep(s, t);
    assert s.mine[t := p.v] == s.mine;
    KeepTablesPut(s, s', t, p.main, p.k, p.v);
    KeepThreads(s, s', t);
    KeepProducers(s, s', t);
    KeepRegs(s, s', t);
  }

  lemma KeepRegs(s: State, s': State, t: nat)
    requires Sized(s) && Sized(s') && Regs(s) && t < |s.pcs| == |s'.pcs| && s'.regs == s.regs && s'.num == s.num
        && s'.count == s.count
    requires forall u :: 0 <= u < |s.pcs| && u != t ==> s'.pcs[u] == s.pcs[u] && s'.mine[u] == s.mine[u]
    requires t in s.regs ==> s'.mine[t] != NONE || Counted(s'.pcs[t])
    ensures Regs(s')
  {
  }

  lemma UnregisteredAbsent(s: State, j: nat, t: nat)
    requires Sized(s) && Tables(s) && j < |s.tables| && t < |s.pcs| && s.mine[t] == NONE
    ensures Absent(s.tables[j], t)
  {
    forall x | 0 <= x < |s.tables[j].keys| ensures s.tables[j].keys[x] != t {
      assert SlotOk(s.tables[j], x, s);
    }
  }

  lemma KeepInsertCas(s: State, t: nat)
    requires Inv(s) && InRange(s, t) && s.pcs[t].InsertCas?
    ensures Inv(InsertCasStep(s, t))
  {
    hide Inv, InsertCasStep;
    ThreadFacts(s, t);
    hide PcOk;
    if Key(s, s.pcs[t].main, t, s.pcs[t].k) != EMPTY { KeepInsertOn(s, t); } else { KeepInserted(s, t); }
  }

  /** The slot is taken: on to the next one. */
  lemma KeepInsertOn(s: State, t: nat)
    requires Inv(s) && InRange(s, t) && s.pcs[t].InsertCas?
    requires Key(s, s.pcs[t].main, t, s.pcs[t].k) != EMPTY
    ensures Inv(InsertCasStep(s, t))
  {
    hide Inv, Tables, Threads, Producers, Regs, Passed, Absent;
    ThreadFacts(s, t);
    var p := s.pcs[t];
    PassOne(s, p.main, s.hash[t], p.k);
    var p' := Insert(p.main, p.k + 1, p.p);
    assert PcOk(p', t, s);
    hide PcOk;
    KeepGo(s, t, p');
  }

  /** The CAS succeeds: the thread has a producer. */
  lemma KeepInserted(s: State, t: nat)
    requires Inv(s) && InRange(s, t) && s.pcs[t].InsertCas?
    requires Key(s, s.pcs[t].main, t, s.pcs[t].k) == EMPTY
    ensures Inv(InsertCasStep(s, t))
  {
    hide Tables, Threads, Producers, Regs, Passed, Absent;
    ThreadFacts(s, t);
    var p, s' := s.pcs[t], InsertCasStep(s, t);
    UnregisteredAbsent(s, p.main, t);
    KeepTablesPut(s, s', t, p.main, p.k, p.p);
    KeepThreads(s, s', t);
    KeepProducers(s, s', t);
    KeepRegs(s, s', t);
  }

  // ---- counting, locking, growing -------------------------------------------------------------------

  lemma KeepCount(s: State, t: nat)
    requires Inv(s) && InRange(s, t) && s.pcs[t].Count?
    ensures Inv(CountStep(s, t))
  {
    hide Tables, Threads, Producers, Regs, Passed, Absent;
    ThreadFacts(s, t);
    var s' := CountStep(s, t);
    assert t in s'.regs by { assert s'.regs[|s.regs|] == t; }
    KeepSlots(s, s');
    CountRegs(s, t);
    KeepThreads(s, s', t);
    KeepProducers(s, s', t);
  }

  lemma CountRegs(s: State, t: nat)
    requires Sized(s) && Regs(s) && InRange(s, t) && s.pcs[t].Count? && t !in s.regs
    ensures Sized(CountStep(s, t)) && Regs(CountStep(s, t))
  {
  }

  /** A step that touches the lock at most. */
  lemma KeepLock(s: State, s': State, t: nat)
    requires Inv(s) && t < |s.pcs| == |s'.pcs|
    requires s' == s.(locked := s'.locked, holder := s'.holder, pcs := s'.pcs) && s'.pcs == s.pcs[t := s'.pcs[t]]
    requires !s.locked || s.holder == t || (s'.locked == s.locked && s'.holder == s.holder)
    requires PcOk(s'.pcs[t], t, s') && Holding(s'.pcs[t], s.mine[t]) == Holding(s.pcs[t], s.mine[t])
    requires t in s.regs ==> s.mine[t] != NONE || Counted(s'.pcs[t])
    ensures Inv(s')
  {
    hide Passed, Absent, Tables, Regs;
    assert Tables(s') by { hide Threads, Producers, PcOk, Regs; KeepSlots(s, s'); }
    assert Regs(s') by { hide Threads, Producers, PcOk; KeepRegs(s, s', t); }
    assert Threads(s') by { hide Producers; KeepThreads(s, s', t); }
    assert Producers(s') by { hide Threads, PcOk; KeepProducers(s, s', t); }
  }

  lemma KeepTryLock(s: State, t: nat)
    requires Inv(s) && InRange(s, t) && s.pcs[t].TryLock?
    ensures Inv(TryLockStep(s, t))
  {
    assert PcOk(s.pcs[t], t, s);
    hide Inv;
    KeepLock(s, TryLockStep(s, t), t);
  }

  lemma KeepReload(s: State, t: nat)
    requires Inv(s) && InRange(s, t) && s.pcs[t].Reload?
    ensures Inv(ReloadStep(s, t))
  {
    assert PcOk(s.pcs[t], t, s);
    hide Inv;
    KeepLock(s, ReloadStep(s, t), t);
  }

  lemma KeepUnlock(s: State, t: nat)
    requires Inv(s) && InRange(s, t) && s.pcs[t].Unlock?
    ensures Inv(UnlockStep(s, t))
  {
    assert PcOk(s.pcs[t], t, s);
    hide Inv;
    KeepLock(s, UnlockStep(s, t), t);
  }

  lemma KeepWait(s: State, t: nat)
    requires Inv(s) && InRange(s, t) && s.pcs[t].Wait?
    ensures Inv(Step(s, t, true))
  {
    assert PcOk(s.pcs[t], t, s);
    hide Inv;
    KeepLock(s, Step(s, t, true), t);
  }

  lemma KeepRest(s: State, t: nat)
    requires Inv(s) && InRange(s, t) && (s.pcs[t].Idle? || s.pcs[t].Done? || s.pcs[t].FailUnlock?)
    ensures Inv(Step(s, t, true))
  {
    assert PcOk(s.pcs[t], t, s);
    assert t in s.regs ==> s.mine[t] != NONE;
    hide Inv;
    KeepLock(s, Step(s, t, true), t);
  }

  /** The old tables stay as they are, and the new one is empty. */
  lemma AllocTables(s: State, t: nat)
    requires Inv(s) && InRange(s, t) && s.pcs[t].Alloc?
    ensures Sized(AllocStep(s, t, true)) && Tables(AllocStep(s, t, true))
  {
    hide Threads, Producers, Regs, Passed, Absent;
    ThreadFacts(s, t);
    var s' := AllocStep(s, t, true);
    forall j, x | 0 <= j < |s'.tables| && 0 <= x < |s'.tables[j].keys| ensures SlotOk(s'.tables[j], x, s') {
      if j < |s.tables| { assert SlotOk(s.tables[j], x, s); }
    }
  }

  /** The new table is empty, at least twice as big, and big enough for the thread that made it. */
  lemma KeepAlloc(s: State, t: nat, ok: bool)
    requires Inv(s) && InRange(s, t) && s.pcs[t].Alloc?
    ensures Inv(AllocStep(s, t, ok))
    ensures ok ==>
      var n, old', new' := s.pcs[t].n, Cap(s.tables[|s.tables| - 1]), Cap(AllocStep(s, t, ok).tables[|s.tables|]);
      n < new' / 2 && 2 * old' <= new' && (new' == 2 * old' || new' / 2 / 2 <= n)
  {
    hide Tables, Threads, Producers, Regs, Passed, Absent;
    ThreadFacts(s, t);
    var s' := AllocStep(s, t, ok);
    if ok {
      AllocTables(s, t);
      KeepRegs(s, s', t);
      KeepThreads(s, s', t);
      KeepProducers(s, s', t);
    } else {
      hide Inv;
      KeepLock(s, s', t);
    }
  }

  lemma KeepCreate(s: State, t: nat, ok: bool)
    requires Inv(s) && InRange(s, t) && s.pcs[t].Create?
    ensures Inv(CreateStep(s, t, ok))
  {
    var s' := CreateStep(s, t, ok);
    assert PcOk(s.pcs[t], t, s);
    if !ok {
      hide Inv;
      KeepLock(s, s', t);
    } else {
      assert Tables(s') by { hide Threads, Producers, PcOk, Regs, Passed; KeepSlots(s, s'); }
      hide Tables, Absent;
      assert Regs(s') by { hide Threads, Producers, PcOk; KeepRegs(s, s', t); }
      hide Regs;
      assert Threads(s') by { hide Producers; KeepThreads(s, s', t); }
      assert Producers(s') by { hide Threads, PcOk; KeepProducers(s, s', t); }
    }
  }

  lemma {:induction false} WithoutAt(regs: seq<int>, t: nat) returns (q: nat)
    requires t in regs
    ensures q < |regs| && regs[q] == t && Without(regs, t) == regs[..q] + regs[q + 1..]
  {
    if regs[0] == t {
      q := 0;
    } else {
      q := WithoutAt(regs[1..], t);
      q := q + 1;
    }
  }

  /** Those counted after the thread that gives up move one place forward. */
  lemma WithoutIs(regs: seq<int>, t: nat) returns (q: nat)
    requires t in regs && forall i, j :: 0 <= i < j < |regs| ==> regs[i] != regs[j]
    ensures q < |regs| && |Without(regs, t)| == |regs| - 1
    ensures forall i :: 0 <= i < |regs| - 1 ==> Without(regs, t)[i] == regs[if i < q then i else i + 1]
    ensures forall u :: u in Without(regs, t) <==> u in regs && u != t
  {
    q := WithoutAt(regs, t);
    hide Without;
    var rest := Without(regs, t);
    assert forall i :: 0 <= i < |regs| && i != q ==> regs[i] != t;
    assert forall u :: u in rest <==> u in regs[..q] || u in regs[q + 1..];
    assert regs == regs[..q] + [t] + regs[q + 1..];
  }

  lemma UncountRegs(s: State, t: nat, p: Pc)
    requires Sized(s) && Regs(s) && t < |s.pcs| && t in s.regs && s.mine[t] == NONE
    ensures Sized(Uncount(s, t, p)) && Regs(Uncount(s, t, p)) && t !in Uncount(s, t, p).regs
    ensures forall u :: 0 <= u < |s.pcs| && u != t && u in s.regs ==> u in Uncount(s, t, p).regs
  {
    hide Without;
    var q := WithoutIs(s.regs, t);
  }

  lemma KeepUncount(s: State, t: nat)
    requires Inv(s) && t < |s.pcs| && (s.pcs[t].AllocFail? || s.pcs[t].CreateFail?)
    ensures Inv(Uncount(s, t, if s.pcs[t].AllocFail? then FailUnlock else Idle))
  {
    var p := if s.pcs[t].AllocFail? then FailUnlock else Idle;
    var s' := Uncount(s, t, p);
    assert PcOk(s.pcs[t], t, s);
    UncountRegs(s, t, p);
    hide Passed, Absent, Missed, Regs, Without;
    assert OtherwiseSame(s, s', t) by { hide Tables, Threads, Producers; }
    assert HomeOk(s, t) && PcOk(p, t, s') by { hide Tables, Producers; }
    assert Tables(s') by { hide Threads, Producers, PcOk; KeepSlots(s, s'); }
    hide Tables;
    assert Producers(s') by { hide Threads, PcOk; KeepProducers(s, s', t); }
    hide PcOk, OtherwiseSame, Producers;
    KeepThreads(s, s', t);
  }

  lemma StepKeepsInv(s: State, t: nat, ok: bool)
    requires Inv(s) && t < |s.pcs|
    ensures InRange(s, t) && Inv(Step(s, t, ok)) && |Step(s, t, ok).pcs| == |s.pcs|
  {
    assert PcOk(s.pcs[t], t, s);
    hide Inv;
    match s.pcs[t]
    case Idle => KeepRest(s, t);
    case LoadMain => KeepLoadMain(s, t);
    case Probe(_, _, _) => KeepProbe(s, t);
    case Move(_, _, _) => KeepMove(s, t);
    case MoveCas(_, _, _) => KeepMoveCas(s, t);
    case Count(_) => KeepCount(s, t);
    case TryLock(_, _) => KeepTryLock(s, t);
    case Reload(_) => KeepReload(s, t);
    case Alloc(_, _) => KeepAlloc(s, t, ok);
    case AllocFail => KeepUncount(s, t);
    case FailUnlock => KeepRest(s, t);
    case Unlock(_, _) => KeepUnlock(s, t);
    case Create(_, _) => KeepCreate(s, t, ok);
    case CreateFail => KeepUncount(s, t);
    case Insert(_, _, _) => KeepInsert(s, t);
    case InsertCas(_, _, _) => KeepInsertCas(s, t);
    case Wait(_) => KeepWait(s, t);
    case Done(_) => KeepRest(s, t);
  }

  // ---- what holds of every run ----------------------------------------------------------------------

  /** One empty table, nobody registered. */
  ghost predicate Initial(s: State) {
    && Sized(s) && |s.tables| == 1 && s.count == 0 && !s.locked && s.regs == []
    && (forall x :: 0 <= x < Cap(s.tables[0]) ==> s.tables[0].keys[x] == EMPTY)
    && (forall t :: 0 <= t < |s.pcs| ==> s.pcs[t].Idle? && s.mine[t] == NONE)
  }

  lemma InitialInv(s: State)
    requires Initial(s)
    ensures Inv(s)
  {
  }

  datatype Choice = Choice(t: nat, ok: bool)

  ghost function Exec(s: State, run: seq<Choice>): (r: State)
    requires Inv(s) && forall i :: 0 <= i < |run| ==> run[i].t < |s.pcs|
    ensures Inv(r) && |r.pcs| == |s.pcs|
    decreases |run|
  {
    if run == [] then s
    else
      StepKeepsInv(s, run[0].t, run[0].ok);
      Exec(Step(s, run[0].t, run[0].ok), run[1..])
  }

  /** Every table keeps a free slot among those probed from any hash. */
  lemma FreeSlot(s: State, j: nat, h: nat) returns (k: nat)
    requires Inv(s) && j < |s.tables|
    ensures k < Cap(s.tables[j]) && Free(s.tables[j], Slot(h, k, Cap(s.tables[j])))
  {
    hide Tables, Regs, Threads, Producers;
    k := 0;
    while s.tables[j].keys[Slot(h, k, Cap(s.tables[j]))] != EMPTY
      invariant k < Cap(s.tables[j]) && Passed(s.tables[j], h, k)
      decreases Cap(s.tables[j]) - k
    {
      PassOne(s, j, h, k);
      k := k + 1;
    }
  }

  /** How far a probe loop still has to go: tables before this one, then slots. */
  function Left(s: State, p: Pc): (nat, int)
    requires Sized(s) && MainOf(p) < |s.tables| && (p.Probe? ==> p.tab < |s.tables|)
  {
    match p
    case Probe(_, tab, k) => (tab, Cap(s.tables[tab]) - k)
    case Move(main, k, _) => (0, 2 * (Cap(s.tables[main]) - k) + 1)
    case MoveCas(main, k, _) => (0, 2 * (Cap(s.tables[main]) - k))
    case Insert(main, k, _) => (0, 2 * (Cap(s.tables[main]) - k) + 1)
    case InsertCas(main, k, _) => (0, 2 * (Cap(s.tables[main]) - k))
    case _ => (0, 0)
  }

  predicate Probing(p: Pc) { p.Probe? || p.Move? || p.MoveCas? || p.Insert? || p.InsertCas? }

  /** p' is closer to the end of its loop than p. */
  predicate Closer(s: State, p: Pc, p': Pc)
    requires Sized(s) && MainOf(p) < |s.tables| && (p.Probe? ==> p.tab < |s.tables|)
  {
    && MainOf(p') == MainOf(p) && (p'.Probe? ==> p'.tab < |s.tables|) && 0 <= Left(s, p').1
    && (Left(s, p').0 < Left(s, p).0 || (Left(s, p').0 == Left(s, p).0 && Left(s, p').1 < Left(s, p).1))
  }

  lemma ProbeCloser(s: State, t: nat)
    requires Inv(s) && InRange(s, t) && s.pcs[t].Probe?
    ensures ProbeStep(s, t).pcs[t].Probe? ==> Closer(s, s.pcs[t], ProbeStep(s, t).pcs[t])
  {
    hide Inv, Passed, Missed, Absent;
    ProbeFacts(s, t);
  }

  lemma FillCloser(s: State, t: nat)
    requires Inv(s) && InRange(s, t) && Probing(s.pcs[t]) && !s.pcs[t].Probe?
    requires Key(s, MainOf(s.pcs[t]), t, s.pcs[t].k) != EMPTY
    ensures s.pcs[t].k + 1 < Cap(s.tables[MainOf(s.pcs[t])])
  {
    var p := s.pcs[t];
    assert PcOk(p, t, s);
    hide Threads, Producers, HomeOk;
    PassOne(s, MainOf(p), s.hash[t], p.k);
  }

  /** Every probe loop ends: a step of one leaves it or gets closer to the end, whatever the others do in
      between (they never empty a slot, shrink a table or touch this thread's place). */
  lemma ProbingEnds(s: State, t: nat, ok: bool)
    requires Inv(s) && t < |s.pcs| && Probing(s.pcs[t])
    ensures InRange(s, t)
    ensures var p, p' := s.pcs[t], Step(s, t, ok).pcs[t];
      (p.Probe? && p'.Probe?) || (!p.Probe? && Probing(p')) ==> Closer(s, p, p')
  {
    assert PcOk(s.pcs[t], t, s);
    var p := s.pcs[t];
    hide Inv;
    if p.Probe? {
      ProbeCloser(s, t);
    } else if Key(s, MainOf(p), t, p.k) != EMPTY {
      FillCloser(s, t);
    }
    hide PcOk;
  }

  /** A call answers with the producer the thread has registered; a thread that has registered one keeps it,
      keeps finding it, and never takes the path that would register another. */
  lemma SameProducer(s: State, t: nat, u: nat, ok: bool)
    requires Inv(s) && t < |s.pcs| && u < |s.pcs| && s.mine[t] != NONE
    ensures InRange(s, u) && Step(s, u, ok).mine[t] == s.mine[t]
    ensures !Counted(s.pcs[t]) && !s.pcs[t].Count?
    ensures s.pcs[t].Done? ==> s.pcs[t].v == s.mine[t]
  {
    hide Inv, Tables, Threads, Producers, Regs, Passed, Missed, Absent;
    ThreadFacts(s, t);
    ThreadFacts(s, u);
    StepKeepsInv(s, u, ok);
  }

  /** No two threads share a producer. */
  lemma OwnProducer(s: State, t: nat, u: nat)
    requires Inv(s) && t < u < |s.pcs| && s.mine[t] != NONE
    ensures s.mine[t] != s.mine[u]
  {
    assert PcOk(s.pcs[t], t, s) && PcOk(s.pcs[u], u, s);
    assert Holding(s.pcs[t], s.mine[t]) == s.mine[t];
    assert s.mine[u] == NONE || Holding(s.pcs[u], s.mine[u]) == s.mine[u];
  }

  lemma {:induction false} KeepsProducer(s: State, run: seq<Choice>, t: nat)
    requires Inv(s) && t < |s.pcs| && s.mine[t] != NONE && forall i :: 0 <= i < |run| ==> run[i].t < |s.pcs|
    ensures Exec(s, run).mine[t] == s.mine[t]
    decreases |run|
  {
    if run != [] {
      StepKeepsInv(s, run[0].t, run[0].ok);
      SameProducer(s, t, run[0].t, run[0].ok);
      hide Inv;
      KeepsProducer(Step(s, run[0].t, run[0].ok), run[1..], t);
    }
  }

  /** Over whole runs: two calls of one thread that answer, however far apart, answer with the same producer,
      and other threads get others. */
  lemma RunIsSafe(s0: State, run: seq<Choice>, later: seq<Choice>, t: nat, u: nat)
    requires Initial(s0) && t < u < |s0.pcs|
    requires (forall i :: 0 <= i < |run| ==> run[i].t < |s0.pcs|)
        && (forall i :: 0 <= i < |later| ==> later[i].t < |s0.pcs|)
    ensures Inv(s0)
    ensures var s := Exec(s0, run); var s' := Exec(s, later);
      && (s.pcs[t].Done? && s'.pcs[t].Done? ==> s'.pcs[t].v == s.pcs[t].v)
      && (s.pcs[t].Done? && s'.pcs[u].Done? ==> s'.pcs[u].v != s.pcs[t].v)
  {
    hide Initial, Inv;
    InitialInv(s0);
    var s := Exec(s0, run);
    var s' := Exec(s, later);
    DoneIsOwn(s, t);
    DoneIsOwn(s', t);
    DoneIsOwn(s', u);
    if s.pcs[t].Done? {
      KeepsProducer(s, later, t);
      OwnProducer(s', t, u);
    }
  }

  lemma DoneIsOwn(s: State, t: nat)
    requires Inv(s) && t < |s.pcs|
    ensures |s.mine| == |s.pcs| && (s.pcs[t].Done? ==> s.mine[t] == s.pcs[t].v && s.mine[t] != NONE)
  {
    hide Inv, Tables, Threads, Producers, Regs, Passed, Missed, Absent;
    ThreadFacts(s, t);
  }
}
