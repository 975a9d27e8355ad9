/** What holds of every run of one producer's sub-queue: each element goes to exactly one dequeuer, the index
    always leads to the right block, and a block returns to the pool once per use, empty. */
module ImplicitRuns {
  import C = DequeueCounters
  import opened Modulo
  import opened ImplicitProducer
  import opened ImplicitSteps
  import opened ImplicitEnqueue

  // ---- construction and runs ----------------------------------------------------------------------

  /** As constructed, over a pool of empty blocks: an index of `cap` entries never used, no thread in a call. */
  ghost predicate Initial<T>(s: State<T>, cap: nat) {
    && Sized(s) && C.Initial(s.c) && s.prod.PIdle? && s.enq == [] && s.slots == [] && s.uses == [] && s.claimer == []
    && 0 < cap == |s.keys| && s.headers == [Header(seq(cap, i => i), cap - 1, 0, 0, 0)]
    && (forall e :: 0 <= e < cap ==> s.keys[e] == INVALID)
    && (forall b :: 0 <= b < |s.owner| ==> s.owner[b].Pool? && AllRaw(s.mem[b]))
  }

  lemma InitialInv<T>(s: State<T>, cap: nat)
    requires Initial(s, cap)
    ensures Inv(s)
  {
    C.InitialInv(s.c);
    hide C.Inv;
    var h := Cur(s);
    forall k: nat | k < cap ensures Pos(h, k) == k && At(h, k) == k {
      Unique(k, cap, 0, k);
    }
    Unique(-1, cap, -1, cap - 1);
    hide Pos, At;
  }

  /** The index never leads out of its entries, nor an entry out of the blocks. */
  lemma DequeuerInRange<T>(s: State<T>, t: nat)
    requires Inv(s) && t < |s.jobs|
    ensures s.c.pcs[t].Have? ==> JobInRange(s, t)
  {
    if s.c.pcs[t].Have? {
      BlockFacts(s, t);
      var j, k := s.c.pcs[t].i / BLOCK_SIZE, s.c.pcs[t].i % BLOCK_SIZE;
      hide Jobs, Uses, Blocks, C.Threads;
      match s.jobs[t]
      case JTail(h) => TailIsLast(s, h, j);
      case JKey(_, _, _) => hide Inv, UseOk, BlockOk; LookupEntry(s, t);
      case JValue(_) => hide UseOk, BlockOk; LiveInIndex(s, j);
      case JMove(_, b) =>
        hide IndexOk, BlockOk;
        assert s.mem[b][k] == CellOf(s.uses[j], j, k, s.enq);
      case JClear(_, _, _) => hide UseOk, BlockOk; LiveInIndex(s, j);
      case _ =>
    }
  }

  lemma EnqueuerInRange<T>(s: State<T>)
    requires Inv(s)
    ensures ProdInRange(s)
  {
    hide C.Inv;
    match s.prod
    case PSlot(_) => NextEntry(s);
    case PWrite(_) => TailCell(s);
    case _ => hide IndexOk, Jobs, Uses, Blocks;
  }

  predicate Runnable<T>(c: Choice<T>, threads: nat) { c.Dequeue? ==> c.t < threads }

  function Step<T>(s: State<T>, c: Choice<T>): State<T>
    requires ProdInRange(s) && Runnable(c, |s.jobs|) && (c.Dequeue? && s.c.pcs[c.t].Have? ==> JobInRange(s, c.t))
  {
    match c
    case Enqueue(x, ok, b, junk) => ProdStep(s, x, ok, b, junk)
    case Dequeue(t) => DequeueStep(s, t)
  }

  lemma EnqueuerKeepsInv<T>(s: State<T>, x: T, ok: bool, b: nat, junk: int)
    requires Inv(s)
    ensures ProdInRange(s) && Inv(ProdStep(s, x, ok, b, junk))
  {
    hide Inv;
    EnqueuerInRange(s);
    match s.prod
    case PIdle => KeepBegin(s, x);
    case PHead(_) => KeepCheckHead(s);
    case PSlot(_) => KeepFindSlot(s);
    case PGrow(_) => KeepGrow(s, ok, junk);
    case PKey(_, _, _) => KeepStoreKey(s);
    case PTail(_, _, _) => KeepStoreTail(s);
    case PReq(_, _) => KeepRequisition(s, ok, b);
    case PRewind(_) => KeepRewind(s);
    case PNull(_) => KeepNullEntry(s);
    case PReset(_, _, _) => KeepResetBlock(s);
    case PVal(_, _, _) => KeepStoreValue(s);
    case PWrite(_) => KeepWriteElement(s);
    case PPub(_) => KeepPublish(s);
  }

  lemma DequeuerKeepsInv<T>(s: State<T>, t: nat)
    requires Inv(s) && t < |s.jobs|
    ensures s.c.pcs[t].Have? ==> JobInRange(s, t)
    ensures Inv(DequeueStep(s, t))
  {
    DequeuerInRange(s, t);
    hide Inv;
    if !s.c.pcs[t].Have? {
      KeepCount(s, t);
    } else {
      match s.jobs[t]
      case JHeader => KeepLoadHeader(s, t);
      case JTail(_) => KeepLoadTail(s, t);
      case JKey(_, _, _) => KeepLoadKey(s, t);
      case JValue(_) => KeepLoadValue(s, t);
      case JMove(_, _) => KeepMoveOut(s, t);
      case JCount(_, _, _) => KeepSetEmpty(s, t);
      case JClear(_, _, _) => KeepClearEntry(s, t);
      case JFree(_, _) => KeepFreeBlock(s, t);
      case JDone(_) => KeepReturn(s, t);
    }
  }

  lemma StepKeepsInv<T>(s: State<T>, c: Choice<T>)
    requires Inv(s) && Runnable(c, |s.jobs|)
    ensures ProdInRange(s) && (c.Dequeue? && s.c.pcs[c.t].Have? ==> JobInRange(s, c.t))
    ensures Inv(Step(s, c)) && |Step(s, c).jobs| == |s.jobs|
  {
    hide Inv;
    EnqueuerInRange(s);
    match c
    case Enqueue(x, ok, b, junk) => EnqueuerKeepsInv(s, x, ok, b, junk);
    case Dequeue(t) => DequeuerKeepsInv(s, t);
  }

  ghost function Exec<T>(s: State<T>, run: seq<Choice<T>>): (r: State<T>)
    requires Inv(s) && forall i :: 0 <= i < |run| ==> Runnable(run[i], |s.jobs|)
    ensures Inv(r) && |r.jobs| == |s.jobs|
    decreases |run|
  {
    if run == [] then s
    else
      StepKeepsInv(s, run[0]);
      Exec(Step(s, run[0]), run[1..])
  }

  // ---- what holds of every reachable state ----------------------------------------------------------

  /** A dequeue that returns an element returns the one published at the index it claimed; no other dequeuer
      holds that index, and every index claimed is below the tail. */
  lemma ReturnsItsElement<T>(s: State<T>, t: nat, u: nat)
    requires Inv(s) && t < |s.jobs| && u < |s.jobs| && t != u && s.c.pcs[t].Have? && s.jobs[t].JDone?
    ensures var i := s.c.pcs[t].i; i < s.c.head <= s.c.tail <= |s.enq| && s.jobs[t].v == s.enq[i]
    ensures s.c.pcs[u].Have? ==> s.c.pcs[u].i != s.c.pcs[t].i
  {
    BlockFacts(s, t);
    TailBound(s);
    C.HeadWithinTail(s.c);
    assert t < u || u < t;
  }

  /** The lookup finds the entry whose key is the index rounded down to a block start and whose value is the
      block that holds the element, however stale the header and the tail it started from. */
  lemma LookupFindsBlock<T>(s: State<T>, t: nat)
    requires Inv(s) && t < |s.jobs| && s.c.pcs[t].Have? && s.jobs[t].JKey?
    ensures JobInRange(s, t)
    ensures var s', i := LoadKey(s, t), s.c.pcs[t].i; var e := s'.jobs[t].e;
      && e < |s.keys| && s.keys[e] == i - i % BLOCK_SIZE && 0 <= s.vals[e] < |s.mem|
      && |s.mem[s.vals[e]]| == BLOCK_SIZE && s.mem[s.vals[e]][i % BLOCK_SIZE] == Full(s.enq[i])
  {
    BlockFacts(s, t);
    var i := s.c.pcs[t].i;
    var j := i / BLOCK_SIZE;
    assert s.mem[s.uses[j].block][i % BLOCK_SIZE] == CellOf(s.uses[j], j, i % BLOCK_SIZE, s.enq);
    hide C.Inv, C.Threads, Jobs, Uses, Blocks, UseOk, BlockOk;
    LookupEntry(s, t);
  }

  /** A dequeuer about to move its element out finds it in the block it looked up, and that block is neither
      in the pool nor with the enqueuer: no claimed index reads a recycled block. */
  lemma ReadsLiveBlock<T>(s: State<T>, t: nat)
    requires Inv(s) && t < |s.jobs| && s.c.pcs[t].Have? && s.jobs[t].JMove?
    ensures var i, b := s.c.pcs[t].i, s.jobs[t].b;
      && b < |s.owner| && s.owner[b] == UsedBy(i / BLOCK_SIZE) && |s.mem[b]| == BLOCK_SIZE
      && s.mem[b][i % BLOCK_SIZE] == Full(s.enq[i]) && s.done[b] < BLOCK_SIZE
  {
    BlockFacts(s, t);
    var i := s.c.pcs[t].i;
    var j := i / BLOCK_SIZE;
    assert s.mem[s.uses[j].block][i % BLOCK_SIZE] == CellOf(s.uses[j], j, i % BLOCK_SIZE, s.enq);
  }

  /** A block on its way to the free list: all its elements are moved out and counted, it is not there yet, its
      cells are raw, and no other dequeuer will put it there or is still inside it. */
  lemma FreedOnce<T>(s: State<T>, t: nat, u: nat)
    requires Inv(s) && t < |s.jobs| && u < |s.jobs| && t != u
    requires s.c.pcs[t].Have? && s.jobs[t].JFree?
    ensures var j, b := s.c.pcs[t].i / BLOCK_SIZE, s.jobs[t].b;
      && b < |s.owner| && s.owner[b] == UsedBy(j) && s.done[b] == BLOCK_SIZE && AllRaw(s.mem[b])
      && (forall k: nat :: k < BLOCK_SIZE ==> k in s.uses[j].fin)
      && (s.c.pcs[u].Have? && (s.jobs[u].JMove? || s.jobs[u].JCount? || s.jobs[u].JClear? || s.jobs[u].JFree?) ==>
           s.jobs[u].b != b)
  {
    hide C.Threads, AllRaw;
    BlockFacts(s, t);
    var j, b := s.c.pcs[t].i / BLOCK_SIZE, s.jobs[t].b;
    DrainedRaw(s.uses[j], j, s.mem[b], s.enq);
    forall k: nat | k < BLOCK_SIZE ensures k in s.uses[j].fin {
      AllSlots(s.uses[j].fin, BLOCK_SIZE, k);
    }
    if s.c.pcs[u].Have? {
      BlockFacts(s, u);
    }
  }

  /** The enqueuer's own assertions: the sub-queue never looks full to it, a full index makes it grow the index, a new
      element is constructed in a raw cell, and an entry of a freshly grown index has never been used. */
  lemma EnqueuerAsserts<T>(s: State<T>, ok: bool, junk: int)
    requires Inv(s)
    ensures s.c.head <= s.c.tail
    ensures s.prod.PHead? ==> CheckHead(s).prod.PSlot?
    ensures s.prod.PSlot? ==> SlotInRange(s) && (FindSlot(s).prod.PKey? || FindSlot(s).prod.PGrow?)
    ensures s.prod.PWrite? ==> TailInRange(s) && s.mem[s.uses[|s.uses| - 1].block][s.c.tail % BLOCK_SIZE].Raw?
    ensures s.prod.PGrow? && ok ==>
      var s' := Grow(s, ok, junk); s'.prod.PKey? && s'.prod.e < |s'.keys| && s'.keys[s'.prod.e] == INVALID
  {
    C.HeadWithinTail(s.c);
    if s.prod.PHead? { KeepCheckHead(s); }
    if s.prod.PSlot? { KeepFindSlot(s); }
    if s.prod.PWrite? { TailCell(s); }
    if s.prod.PGrow? && ok { KeepGrow(s, ok, junk); GrowHeader(s, junk); }
  }

  /** The count of a block's elements moved out stays below the block size until the last one. */
  lemma CountStaysInBlock<T>(s: State<T>, t: nat)
    requires Inv(s) && t < |s.jobs| && s.c.pcs[t].Have? && s.jobs[t].JCount?
    ensures s.jobs[t].b < |s.done| && s.done[s.jobs[t].b] < BLOCK_SIZE
  {
    hide Inv;
    DequeuerInRange(s, t);
    KeepSetEmpty(s, t);
  }

  /** With no call under way nothing is lost and nothing leaks: every block is in the pool, empty, or holds at
      least one element not yet claimed or cell not yet filled. */
  lemma QuiescentBlocks<T>(s: State<T>, b: nat)
    requires Inv(s) && b < |s.owner| && s.prod.PIdle? && forall t :: 0 <= t < |s.jobs| ==> s.c.pcs[t].DIdle?
    ensures s.owner[b].Pool? ==> AllRaw(s.mem[b])
    ensures !s.owner[b].Pool? ==>
      && s.owner[b].UsedBy? && s.owner[b].j < |s.uses| && s.uses[s.owner[b].j].block == b
      && s.done[b] < BLOCK_SIZE && s.uses[s.owner[b].j].stage.Active?
  {
    assert BlockOk(s.owner[b], b, s.mem[b], s.uses, s.prod);
    if s.owner[b].UsedBy? {
      var j := s.owner[b].j;
      assert UseOk(s.uses[j], j, s.done, s.mem, s.owner, s.enq, s.c.head)
          && Placed(s.uses[j].stage, j, s.c.pcs, s.jobs);
    }
  }

  /** Nothing claimed is lost: with no dequeue under way every index below the head has been moved out, and
      counted in its block. */
  lemma QuiescentDelivered<T>(s: State<T>, i: nat)
    requires Inv(s) && i < s.c.head && forall t :: 0 <= t < |s.jobs| ==> s.c.pcs[t].DIdle?
    ensures i / BLOCK_SIZE < |s.uses| && i % BLOCK_SIZE in s.uses[i / BLOCK_SIZE].fin
    ensures s.c.opt - s.c.over == s.c.head
  {
    assert ClaimOk(i, s.claimer[i], s.c.pcs, s.jobs, s.uses);
    C.QuiescentCounts(s.c);
  }

  /** From construction on, after any interleaving of one enqueuer and any number of dequeuers. */
  lemma RunIsSafe<T>(s0: State<T>, cap: nat, run: seq<Choice<T>>, t: nat, u: nat)
    requires Initial(s0, cap) && forall i :: 0 <= i < |run| ==> Runnable(run[i], |s0.jobs|)
    requires t < |s0.jobs| && u < |s0.jobs| && t != u
    ensures Inv(s0)
    ensures var s := Exec(s0, run);
      && s.c.head <= s.c.tail
      && (s.c.pcs[t].Have? && s.jobs[t].JDone? ==> s.c.pcs[t].i < |s.enq| && s.jobs[t].v == s.enq[s.c.pcs[t].i])
      && (s.c.pcs[t].Have? && s.c.pcs[u].Have? ==> s.c.pcs[t].i != s.c.pcs[u].i)
  {
    InitialInv(s0, cap);
    var s := Exec(s0, run);
    C.HeadWithinTail(s.c);
    if s.c.pcs[t].Have? && s.jobs[t].JDone? { ReturnsItsElement(s, t, u); }
    assert t < u || u < t;
  }
}
