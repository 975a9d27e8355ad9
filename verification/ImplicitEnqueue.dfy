/** Every step of the enqueuer keeps the invariant of ImplicitProducer: choosing, growing and rewinding the
    block index, taking a block from the pool, constructing and publishing an element. */
module ImplicitEnqueue {
  import C = DequeueCounters
  import opened Modulo
  import opened ImplicitProducer
  import opened ImplicitSteps

  /** The dequeuers notice nothing of what the enqueuer adds. */
  lemma KeepDequeuers<T>(s: State<T>, s': State<T>)
    requires Sized(s) && Sized(s') && Jobs(s) && Claimed(s) && s'.jobs == s.jobs && s'.claimer == s.claimer
    requires s'.c.pcs == s.c.pcs && s'.c.head == s.c.head && s.uses <= s'.uses && |s'.uses| <= |s.uses| + 1
    requires SameHeaders(s.headers, s'.headers, s.uses) && s.slots <= s'.slots && s.enq <= s'.enq
    ensures Jobs(s') && Claimed(s')
  {
    hide SameHeaders, Claimed;
    assert Claimed(s') by { hide Jobs; KeepClaimed(s, s', -1, |s.uses|); }
    assert Jobs(s') by { KeepJobs(s, s', -1, |s.uses|, 0); }
  }

  /** The enqueuer's own step leaves the dequeuers where they are. */
  lemma KeepOwn<T>(s: State<T>, s': State<T>)
    requires Inv(s) && Sized(s') && s'.c == s.c && s'.jobs == s.jobs && s'.enq == s.enq && s'.uses == s.uses
    requires s'.done == s.done && s'.mem == s.mem && s'.owner == s.owner && s'.claimer == s.claimer
    requires !s.prod.PReset? && !s.prod.PVal?
    requires SameHeaders(s.headers, s'.headers, s.uses) && s.slots <= s'.slots && IndexOk(s') && ProdOk(s')
    ensures Inv(s')
  {
    hide IndexOk, ProdOk, C.Inv, SameHeaders, Claimed, Uses, Blocks;
    assert Claimed(s') by { hide Jobs, Blocks, Uses; KeepClaimed(s, s', -1, -1); }
    assert Uses(s') by { hide Jobs, Blocks; KeepUses(s, s', -1, -1, -1); }
    assert Blocks(s') by { hide Jobs, Uses; KeepBlocks(s, s', -1, -1); }
    assert Jobs(s') by { KeepJobs(s, s', -1, -1, 0); }
  }

  lemma KeepBegin<T>(s: State<T>, x: T)
    requires Inv(s) && s.prod.PIdle?
    ensures Inv(Begin(s, x))
  {
    hide C.Inv, HeadersOk, Keyed, Valued, Jobs, Uses, Blocks, Claimed;
    var s' := Begin(s, x);
    assert ProdOk(s') by { hide IndexOk, Reserved, Reusable; }
    assert IndexOk(s') by { hide ProdOk; }
    hide IndexOk, ProdOk;
    KeepOwn(s, s');
  }

  /** The sub-queue never looks full to its enqueuer: the assertion that the head is not after the tail holds. */
  lemma KeepCheckHead<T>(s: State<T>)
    requires Inv(s) && s.prod.PHead?
    ensures Inv(CheckHead(s)) && s.c.head <= s.c.tail && CheckHead(s).prod.PSlot?
  {
    C.HeadWithinTail(s.c);
    hide C.Inv, HeadersOk, Keyed, Valued, Jobs, Uses, Blocks;
    assert ProdOk(CheckHead(s)) by { hide Inv, IndexOk; }
    assert IndexOk(CheckHead(s)) by { hide Inv; }
    hide Inv, IndexOk, ProdOk;
    KeepOwn(s, CheckHead(s));
  }

  /** The entry after the tail: the one kept from a rewound attempt, one never used, or, with the window full,
      that of the oldest block. */
  lemma NextEntry<T>(s: State<T>)
    requires IndexOk(s) && Between(s)
    ensures var h, n := Cur(s), |s.uses|; var at := (h.tail + 1) % Cap(h);
      && at == Pos(h, n) && At(h, n) == h.index[at] < |s.keys| && n <= h.lo + Cap(h)
      && (|s.slots| == n + 1 ==> At(h, n) == s.slots[n] && s.vals[At(h, n)] == NULL)
      && (|s.slots| == n < h.lo + Cap(h) ==> s.keys[At(h, n)] == INVALID)
      && (n == h.lo + Cap(h) ==> h.lo < n && At(h, n) == At(h, h.lo) && s.vals[At(h, n)] == ValueOf(s.uses[h.lo]))
  {
    var h, n := Cur(s), |s.uses|;
    PosShift(h, n - 1, 1);
    PosRound(h, h.lo);
    assert HeaderOk(h, s.slots);
    assert n == h.lo + Cap(h) ==> At(h, n) == At(h, h.lo) < |s.keys|;
    hide HeadersOk;
  }

  lemma KeepFindSlot<T>(s: State<T>)
    requires Inv(s) && s.prod.PSlot?
    ensures SlotInRange(s) && Inv(FindSlot(s))
  {
    hide HeadersOk, C.Inv, Jobs, Blocks, Claimed;
    NextEntry(s);
    var s' := FindSlot(s);
    assert ProdOk(s') by {
      var n, h := |s.uses|, Cur(s);
      if n == h.lo + Cap(h) {
        assert UseOk(s.uses[h.lo], h.lo, s.done, s.mem, s.owner, s.enq, s.c.head);
        assert s.keys[At(h, h.lo)] == BLOCK_SIZE * h.lo;
      }
      hide Uses, UseOk;
    }
    hide Uses, Keyed, Valued;
    assert IndexOk(s') by { hide ProdOk; }
    hide Inv, IndexOk, ProdOk;
    KeepOwn(s, s');
  }

  // ---- growing the index ------------------------------------------------------------------------

  /** The doubled index: the blocks of the full window first, in order, then the fresh entries. */
  lemma DoubledAt(h: Header, slots: seq<nat>, first: nat, h': Header, k: nat)
    requires HeaderOk(h, slots) && h.hi == h.lo + Cap(h) && h.tail == Pos(h, h.hi - 1)
    requires h' == Header(Doubled(h, first), Cap(h) - 1, h.lo, h.lo, h.hi) && h.lo <= k < h.lo + 2 * Cap(h)
    ensures Cap(h') == 2 * Cap(h) && Pos(h', k) == k - h.lo
    ensures At(h', k) == if k < h.hi then At(h, k) else first + (k - h.hi)
  {
    Unique(k - h.lo, 2 * Cap(h), 0, k - h.lo);
    if k < h.hi {
      PosShift(h, h.hi - 1, 1 + (k - h.lo));
      PosRound(h, k);
      assert h.hi - 1 + 1 + (k - h.lo) == k + Cap(h);
    }
  }

  /** The copying loop of new_block_index: it goes round the old ring once, starting after the tail. */
  method DoubleIndex(h: Header, first: nat) returns (index: array<nat>)
    requires 0 < Cap(h) && h.tail < Cap(h)
    ensures fresh(index) && index[..] == Doubled(h, first)
  {
    var n := Cap(h);
    ghost var want := Doubled(h, first);
    index := new nat[2 * n];
    var pos, i := (h.tail + 1) % n, 0;
    index[i] := h.index[pos];
    i := i + 1;
    while pos != h.tail
      invariant 1 <= i <= n && pos == (h.tail + i) % n
      invariant index[..i] == want[..i]
      decreases n - i
    {
      OnlyThere(h, i);
      NextPos(h, i);
      pos := (pos + 1) % n;
      assert want[i] == h.index[(h.tail + 1 + i) % n];
      index[i] := h.index[pos];
      i := i + 1;
    }
    AllTheWay(h, i);
    for k := 0 to n
      invariant index[..n + k] == want[..n + k]
    {
      index[n + k] := first + k;
      assert want[n + k] == first + k;
    }
  }

  lemma NextPos(h: Header, i: nat)
    requires 0 < Cap(h)
    ensures ((h.tail + i) % Cap(h) + 1) % Cap(h) == (h.tail + 1 + i) % Cap(h)
  {
    ModAdd(h.tail + i, 1, Cap(h));
  }

  lemma OnlyThere(h: Header, i: nat)
    requires i <= Cap(h) && h.tail < Cap(h) && (h.tail + i) % Cap(h) != h.tail
    ensures i < Cap(h)
  {
    ModOnce(h.tail, Cap(h));
    Unique(h.tail, Cap(h), 0, h.tail);
  }

  /** The loop comes back to the tail only after every entry. */
  lemma AllTheWay(h: Header, i: nat)
    requires 1 <= i <= Cap(h) && h.tail < Cap(h) && (h.tail + i) % Cap(h) == h.tail
    ensures i == Cap(h)
  {
    if h.tail + i < Cap(h) {
      Unique(h.tail + i, Cap(h), 0, h.tail + i);
    } else {
      Unique(h.tail + i, Cap(h), 1, h.tail + i - Cap(h));
    }
  }

  lemma GrowHeader<T>(s: State<T>, junk: int)
    requires IndexOk(s) && s.prod.PGrow? && ProdOk(s)
    ensures var s' := Grow(s, true, junk); var h' := Cur(s');
      && HeaderOk(h', s.slots) && h'.hi == |s.slots| == |s.uses| && h'.tail == Pos(h', h'.hi - 1)
      && Cap(h') == 2 * Cap(Cur(s))
      && Keyed(h', s'.keys) && Valued(h', s'.vals, s'.uses)
      && Cur(s).tail == Pos(Cur(s), Cur(s).hi - 1) && Cur(s).lo < Cur(s).hi
      && s'.prod.at == Pos(h', |s.uses|) && s'.prod.e == At(h', |s.uses|) == |s.keys| < |s'.keys|
  {
    hide At, Pos, HeadersOk, Doubled;
    GrownAt(s, junk);
    GrownEntry(s, junk);
    var s' := Grow(s, true, junk);
    var h' := Cur(s');
    assert HeaderOk(h', s.slots) by { hide Keyed, Valued; }
    hide HeaderOk;
    assert Valued(h', s'.vals, s'.uses) by { hide Keyed; }
    hide Valued;
  }

  /** Every block keeps its entry, and those to come get the fresh ones. */
  lemma GrownAt<T>(s: State<T>, junk: int)
    requires IndexOk(s) && s.prod.PGrow? && ProdOk(s)
    ensures var h, h' := Cur(s), Cur(Grow(s, true, junk));
      && HeaderOk(h, s.slots) && Cap(h') == 2 * Cap(h)
      && forall k: nat :: h.lo <= k < h.lo + 2 * Cap(h) ==>
           At(h', k) == (if k < h.hi then At(h, k) else |s.keys| + (k - h.hi)) && Pos(h', k) == k - h.lo
  {
    hide HeadersOk, Keyed, Valued, At, Pos;
    CurOk(s);
    var h, h' := Cur(s), Cur(Grow(s, true, junk));
    forall k: nat | h.lo <= k < h.lo + 2 * Cap(h)
      ensures At(h', k) == (if k < h.hi then At(h, k) else |s.keys| + (k - h.hi)) && Pos(h', k) == k - h.lo
    {
      DoubledAt(h, s.slots, |s.keys|, h', k);
    }
  }

  /** The entry chosen for the next block is the first of the fresh ones. */
  lemma GrownEntry<T>(s: State<T>, junk: int)
    requires IndexOk(s) && s.prod.PGrow? && ProdOk(s)
    ensures var s' := Grow(s, true, junk); var h, h' := Cur(s), Cur(s');
      && h'.lo == h.lo < h.hi == h'.hi == |s.slots| == |s.uses| == h.lo + Cap(h) && h.tail == Pos(h, h.hi - 1)
      && h'.tail == Pos(h', h'.hi - 1) && s'.prod.at == Pos(h', |s.uses|)
      && s'.prod.e == At(h', |s.uses|) == |s.keys| < |s'.keys|
  {
    hide HeadersOk, Keyed, Valued, Doubled;
    GrownAt(s, junk);
    var h := Cur(s);
    Unique(Cap(h), 2 * Cap(h), 0, Cap(h));
    Unique(Cap(h) - 1, 2 * Cap(h), 0, Cap(h) - 1);
  }

  lemma CurOk<T>(s: State<T>)
    requires IndexOk(s)
    ensures HeaderOk(Cur(s), s.slots)
  {
    hide Keyed, Valued;
  }

  lemma GrowHeaders<T>(s: State<T>, junk: int)
    requires IndexOk(s) && s.prod.PGrow? && ProdOk(s)
    ensures HeadersOk(Grow(s, true, junk).headers, s.slots)
  {
    hide HeaderOk, Keyed, Valued;
    GrowHeader(s, junk);
  }

  lemma KeepGrow<T>(s: State<T>, ok: bool, junk: int)
    requires Inv(s) && s.prod.PGrow?
    ensures Inv(Grow(s, ok, junk))
    ensures ok ==> Grow(s, ok, junk).keys[Grow(s, ok, junk).prod.e] == INVALID
  {
    hide Jobs, Uses, Blocks, Claimed, C.Inv, HeadersOk, HeaderOk, Keyed, Valued;
    var s' := Grow(s, ok, junk);
    if ok {
      GrowHeader(s, junk);
      assert Cur(s') == s'.headers[|s.headers|];
      GrowHeaders(s, junk);
      assert ProdOk(s') by { hide IndexOk; }
      assert IndexOk(s') by { hide ProdOk; }
    } else {
      assert ProdOk(s') && IndexOk(s');
    }
    hide IndexOk, ProdOk;
    KeepOwn(s, s');
  }

  // ---- inserting and rewinding an entry ---------------------------------------------------------

  /** Shifting the window past the oldest block, when it is full, changes no entry's place. */
  lemma StoreKeyAt<T>(s: State<T>)
    requires IndexOk(s) && s.prod.PKey? && ProdOk(s) && |s.slots| == |s.uses|
    ensures var s' := StoreKey(s); var h, h' := Cur(s), Cur(s');
      && Sized(s') && HeaderOk(h, s.slots) && Cap(h') == Cap(h) && At(h, h.lo + Cap(h)) == At(h, h.lo)
      && (forall k :: At(h', k) == At(h, k))
  {
    var h, h', n := Cur(s), Cur(StoreKey(s)), |s.uses|;
    hide HeadersOk, Keyed, Valued;
    PosRound(h, h.lo);
    forall k: int ensures At(h', k) == At(h, k) { assert Pos(h', k) == Pos(h, k); }
  }

  lemma StoreKeyHeader<T>(s: State<T>)
    requires IndexOk(s) && s.prod.PKey? && ProdOk(s) && |s.slots| == |s.uses|
    ensures var s' := StoreKey(s); var h' := Cur(s');
      && Sized(s') && HeaderOk(h', s'.slots) && h'.hi == |s'.slots| && Keyed(h', s'.keys)
      && Valued(h', s'.vals, s'.uses)
  {
    hide HeadersOk, At, Pos;
    var s' := StoreKey(s);
    var h, h', n := Cur(s), Cur(s'), |s.uses|;
    StoreKeyAt(s);
    assert forall k :: h'.lo <= k < n ==> At(h, k) != At(h, n);
    assert Valued(h', s'.vals, s'.uses) by { hide Keyed, HeaderOk; }
    hide Valued;
    assert HeaderOk(h', s'.slots) by { hide Keyed; }
    hide HeaderOk;
  }

  lemma KeepHeaders(headers: seq<Header>, slots: seq<nat>, h': Header, slots': seq<nat>)
    requires headers != [] && HeadersOk(headers, slots) && slots <= slots' && HeaderOk(h', slots')
    ensures HeadersOk(headers[|headers| - 1 := h'], slots')
  {
    var headers' := headers[|headers| - 1 := h'];
    forall h | 0 <= h < |headers'| ensures HeaderOk(headers'[h], slots') {
      assert HeaderOk(headers[h], slots);
    }
  }

  lemma KeepStoreKey<T>(s: State<T>)
    requires Inv(s) && s.prod.PKey?
    ensures s.prod.e < |s.keys| && Inv(StoreKey(s))
  {
    var s' := StoreKey(s);
    hide Jobs, Uses, Blocks, C.Inv;
    if |s.slots| == |s.uses| {
      StoreKeyHeader(s);
      hide Keyed, Valued;
      assert HeadersOk(s'.headers, s'.slots) by {
        hide Inv, ProdOk, HeaderOk, HeadersOk;
        KeepHeaders(s.headers, s.slots, Cur(s'), s'.slots);
      }
      assert IndexOk(s') by { hide Inv, ProdOk, HeadersOk, HeaderOk; }
    } else {
      assert At(Cur(s), |s.uses|) == s.slots[|s.uses|] && s.keys[s.prod.e] == BLOCK_SIZE * |s.uses| == s.c.tail;
      assert s'.keys == s.keys && s'.headers == s.headers;
      hide Keyed, Valued, HeadersOk;
      assert IndexOk(s');
    }
    assert ProdOk(s') by { hide HeadersOk, Keyed, Valued; }
    assert SameHeaders(s.headers, s'.headers, s.uses);
    hide Inv, IndexOk, ProdOk;
    KeepOwn(s, s');
  }

  lemma NewTail<T>(s: State<T>, s': State<T>, at: nat)
    requires IndexOk(s) && at < Cap(Cur(s)) && Sized(s') && s'.keys == s.keys && s'.vals == s.vals && s'.uses == s.uses
    requires s'.slots == s.slots && s'.headers == s.headers[|s.headers| - 1 := Cur(s).(tail := at)]
    ensures IndexOk(s')
  {
    KeepHeaders(s.headers, s.slots, Cur(s).(tail := at), s.slots);
    var h, h' := Cur(s), Cur(s');
    hide HeadersOk;
    forall k: int ensures At(h', k) == At(h, k) { }
    hide At;
  }

  lemma KeepStoreTail<T>(s: State<T>)
    requires Inv(s) && s.prod.PTail?
    ensures Inv(StoreTail(s))
  {
    var s' := StoreTail(s);
    hide Jobs, Uses, Blocks, C.Inv;
    assert IndexOk(s') by { hide Inv, HeadersOk, Keyed, Valued; NewTail(s, s', s.prod.at); }
    assert ProdOk(s') by { hide Inv, IndexOk; }
    hide Inv, IndexOk, ProdOk;
    KeepOwn(s, s');
  }

  lemma KeepRewind<T>(s: State<T>)
    requires Inv(s) && s.prod.PRewind?
    ensures Inv(Rewind(s))
  {
    hide Jobs, Uses, Blocks, Claimed, C.Inv, HeadersOk, Keyed, Valued;
    var s' := Rewind(s);
    PosShift(Cur(s), |s.uses|, -1);
    NewTail(s, s', Cur(s').tail);
    assert ProdOk(s') by { hide IndexOk; }
    hide IndexOk, ProdOk;
    KeepOwn(s, s');
  }

  lemma StoreAtReserved<T>(s: State<T>, s': State<T>, v: int)
    requires IndexOk(s) && Sized(s') && |s.slots| == |s.uses| + 1 && s.slots[|s.uses|] < |s.vals|
    requires s'.keys == s.keys && s'.headers == s.headers && s'.slots == s.slots
        && s'.vals == s.vals[s.slots[|s.uses|] := v]
    requires s'.uses == s.uses || (|s'.uses| == |s.uses| + 1 && s.uses <= s'.uses && v == ValueOf(s'.uses[|s.uses|]))
    ensures IndexOk(s')
  {
    var h, n := Cur(s), |s.uses|;
    assert HeaderOk(h, s.slots);
    assert At(h, n) == s.slots[n];
    hide HeadersOk;
  }

  lemma KeepNullEntry<T>(s: State<T>)
    requires Inv(s) && s.prod.PNull?
    ensures s.prod.e < |s.vals| && Inv(NullEntry(s))
  {
    var s' := NullEntry(s);
    hide Jobs, Uses, Blocks, C.Inv;
    assert IndexOk(s') by { hide Inv, IndexOk; StoreAtReserved(s, s', NULL); }
    assert ProdOk(s') by { hide Inv, IndexOk; }
    hide Inv, IndexOk, ProdOk;
    KeepOwn(s, s');
  }

  // ---- taking a block -----------------------------------------------------------------------------

  lemma KeepTakeBlock<T>(s: State<T>, s': State<T>, b: nat)
    requires Inv(s) && s.prod.PReq? && Sized(s') && s'.prod == PReset(s.prod.x, s.prod.e, b)
    requires s' == s.(owner := s'.owner, done := s'.done, mem := s'.mem, prod := s'.prod) && SameBlocks(s, s', b)
    requires b < |s'.owner| && s'.owner[b].Mine? && AllRaw(s'.mem[b])
    requires if b < |s.owner| then |s'.owner| == |s.owner| && s.owner[b].Pool? else |s'.owner| == |s.owner| + 1
    ensures Inv(s')
  {
    hide Keyed, Valued, HeadersOk, C.Inv;
    assert IndexOk(s') by { hide Jobs, Uses, Blocks, ProdOk; }
    assert ProdOk(s') by { hide Jobs, Uses, Blocks; }
    hide IndexOk, ProdOk;
    assert Claimed(s') by { hide Jobs, Blocks, Uses; KeepClaimed(s, s', -1, -1); }
    hide Claimed;
    assert Uses(s') by { hide Jobs, Blocks; KeepUses(s, s', -1, -1, b); }
    assert Blocks(s') by { hide Jobs, Uses; KeepBlocks(s, s', -1, b); }
    hide Uses, Blocks;
    assert Jobs(s') by { KeepJobs(s, s', -1, -1, 0); }
  }

  lemma KeepRequisition<T>(s: State<T>, ok: bool, b: nat)
    requires Inv(s) && s.prod.PReq?
    ensures Inv(Requisition(s, ok, b))
  {
    hide Keyed, Valued, HeadersOk, C.Inv, Jobs, Uses;
    var s' := Requisition(s, ok, b);
    if s'.prod.PReset? {
      assert b < |s.owner| && s.owner[b].Pool? ==> BlockOk(s.owner[b], b, s.mem[b], s.uses, s.prod);
      hide Inv, IndexOk, ProdOk, Blocks;
      KeepTakeBlock(s, s', s'.prod.b);
    } else {
      hide Blocks;
      assert ProdOk(s') by { hide Inv, IndexOk; }
      assert IndexOk(s') by { hide Inv; }
      hide Inv, IndexOk, ProdOk;
      KeepOwn(s, s');
    }
  }

  lemma ReservedBlock<T>(s: State<T>)
    requires Inv(s) && (s.prod.PReset? || s.prod.PVal?)
    ensures s.prod.b < |s.owner| && BlockOk(s.owner[s.prod.b], s.prod.b, s.mem[s.prod.b], s.uses, s.prod)
  {
    hide C.Inv, IndexOk, Uses, Jobs, Claimed;
  }

  lemma KeepResetBlock<T>(s: State<T>)
    requires Inv(s) && s.prod.PReset?
    ensures s.prod.b < |s.done| && Inv(ResetBlock(s))
  {
    hide Keyed, Valued, HeadersOk, C.Inv, Jobs, Uses, Blocks, Claimed;
    var s' := ResetBlock(s);
    assert IndexOk(s') by { hide ProdOk; }
    assert ProdOk(s');
    KeepClaimed(s, s', -1, -1);
    hide IndexOk, ProdOk;
    KeepUses(s, s', -1, -1, s.prod.b);
    ReservedBlock(s);
    KeepBlocks(s, s', -1, s.prod.b);
    KeepJobs(s, s', -1, -1, 0);
  }

  lemma FreshUse<T>(b: nat, j: nat, cells: seq<Cell<T>>, enq: seq<T>)
    requires AllRaw(cells) && |enq| <= BLOCK_SIZE * j
    ensures SlotsOk(Use(b, {}, {}, Active)) && CellsOk(cells, Use(b, {}, {}, Active), j, enq)
  {
  }

  lemma KeepStoreValue<T>(s: State<T>)
    requires Inv(s) && s.prod.PVal?
    ensures s.prod.e < |s.vals| && s.prod.b < |s.owner| && Inv(StoreValue(s))
  {
    hide C.Inv, IndexOk, Uses, Blocks, Jobs, Claimed, CellsOk, AllRaw;
    var s' := StoreValue(s);
    var n, b := |s.uses|, s.prod.b;
    ReservedBlock(s);
    FreshUse(b, n, s.mem[b], s.enq);
    StoreAtReserved(s, s', b);
    KeepClaimed(s, s', -1, n);
    hide SlotsOk;
    KeepUses(s, s', -1, n, b);
    KeepBlocks(s, s', n, b);
    KeepJobs(s, s', -1, n, 0);
  }

  // ---- writing and publishing an element ----------------------------------------------------------

  /** The tail block is still the enqueuer's, and the cell for the next element is raw. */
  lemma TailCell<T>(s: State<T>)
    requires Inv(s) && s.prod.PWrite?
    ensures TailInRange(s)
    ensures var n := |s.uses|; var u := s.uses[n - 1];
      && BLOCK_SIZE * (n - 1) + s.c.tail % BLOCK_SIZE == s.c.tail == |s.enq| && s.c.tail % BLOCK_SIZE !in u.taken
      && u.stage.Active? && s.owner[u.block] == UsedBy(n - 1)
      && UseOk(u, n - 1, s.done, s.mem, s.owner, s.enq, s.c.head) && s.mem[u.block][s.c.tail % BLOCK_SIZE].Raw?
  {
    hide C.Inv, IndexOk, Jobs, Blocks;
    C.HeadWithinTail(s.c);
    var n, k := |s.uses|, s.c.tail % BLOCK_SIZE;
    var u := s.uses[n - 1];
    assert UseOk(u, n - 1, s.done, s.mem, s.owner, s.enq, s.c.head);
    assert BLOCK_SIZE * (n - 1) + k == s.c.tail;
    NotDrained(u, k);
  }

  lemma WriteUse<T>(u: Use, j: nat, k: nat, cells: seq<Cell<T>>, enq: seq<T>, x: T)
    requires CellsOk(cells, u, j, enq) && k < BLOCK_SIZE && BLOCK_SIZE * j + k == |enq| && k !in u.taken
    ensures CellsOk(cells[k := Full(x)], u, j, enq + [x])
  {
  }

  lemma WriteTailUse<T>(s: State<T>)
    requires Inv(s) && s.prod.PWrite?
    ensures TailInRange(s)
    ensures var s', n := WriteElement(s), |s.uses|;
      && UseOk(s'.uses[n - 1], n - 1, s'.done, s'.mem, s'.owner, s'.enq, s'.c.head)
      && s.uses[n - 1].stage.Active? && s.owner[s.uses[n - 1].block] == UsedBy(n - 1)
      && |s.enq| == s.c.tail && BLOCK_SIZE * (n - 1) <= s.c.tail
  {
    hide Inv, SlotsOk, CellsOk;
    TailCell(s);
    var s' := WriteElement(s);
    var n, k := |s.uses|, s.c.tail % BLOCK_SIZE;
    WriteUse(s.uses[n - 1], n - 1, k, s.mem[s.uses[n - 1].block], s.enq, s.prod.x);
  }

  lemma KeepWriteElement<T>(s: State<T>)
    requires Inv(s) && s.prod.PWrite?
    ensures TailInRange(s) && Inv(WriteElement(s))
  {
    hide C.Inv, Keyed, Valued, HeadersOk, UseOk, Uses, Blocks, Jobs, Claimed;
    WriteTailUse(s);
    var s' := WriteElement(s);
    var n := |s.uses|;
    var b := s.uses[n - 1].block;
    KeepDequeuers(s, s');
    assert IndexOk(s') by { hide ProdOk; }
    hide IndexOk, ProdOk;
    KeepUses(s, s', -1, n - 1, b);
    KeepBlocks(s, s', n - 1, b);
  }

  lemma KeepPublish<T>(s: State<T>)
    requires Inv(s) && s.prod.PPub?
    ensures Inv(Publish(s))
  {
    var s' := Publish(s);
    C.KeepPublish(s.c);
    hide C.Inv, Keyed, Valued, HeadersOk;
    assert IndexOk(s') by { hide Jobs, Uses, Blocks, ProdOk; }
    assert ProdOk(s') by { hide Jobs, Uses, Blocks; }
    assert Claimed(s') by { hide Jobs, Blocks, Uses; KeepClaimed(s, s', -1, -1); }
    hide Claimed;
    assert Uses(s') by { hide Jobs, Blocks; KeepUses(s, s', -1, -1, -1); }
    assert Blocks(s') by { hide Jobs, Uses; KeepBlocks(s, s', -1, -1); }
    hide Uses, Blocks, IndexOk, ProdOk;
    assert Jobs(s') by { KeepJobs(s, s', -1, -1, 0); }
  }
}
