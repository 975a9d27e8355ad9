/** The capacity the constructor promises: `try_enqueue` refuses only a queue that holds at least the
    number of elements it was built for, whatever blocks later growth has added. */
module SpscCapacity {
  import opened SpscMachine
  import opened SpscRuns
  import opened SpscCalls
  import Bits

  function Max1(n: int): int { if n < 1 then 1 else n }

  /** Every block can hold w elements, and the blocks but one together at least m. */
  ghost predicate Roomy<T>(s: State<T>, w: nat, m: nat) {
    && (forall i :: 0 <= i < |s.blocks| ==> w < s.blocks[i].size)
    && w < s.largest && m <= Max1(|s.ring| - 1) * w
    && (s.prod.PCheckNext? && s.used == |s.ring| ==> m <= s.heldAtFull)
  }

  lemma {:induction false} FullSum<T>(blocks: seq<Block<T>>, ring: seq<nat>, k: nat, w: nat)
    requires AllOk(blocks) && Ids(blocks, ring) && 0 < k <= |ring|
    requires forall i :: 0 <= i < |blocks| ==> w < blocks[i].size
    requires forall i :: 0 < i < k ==> IsFull(blocks[ring[i]])
    ensures (k - 1) * w <= |Concat(blocks, ring, k)|
  {
    if 1 < k {
      FullSum(blocks, ring, k - 1, w);
      ElemsLength(blocks[ring[k - 1]]);
      assert (k - 1) * w == (k - 2) * w + w;
    }
  }

  lemma OneFull<T>(blocks: seq<Block<T>>, ring: seq<nat>, w: nat)
    requires AllOk(blocks) && Ids(blocks, ring) && 1 <= |ring| && IsFull(blocks[ring[0]]) && w < blocks[ring[0]].size
    ensures w <= |Concat(blocks, ring, 1)|
  {
    ElemsLength(blocks[ring[0]]);
    assert Concat(blocks, ring, 0) == [] && Concat(blocks, ring, 1) == Concat(blocks, ring, 0) + Elems(blocks[ring[0]]);
  }

  lemma FullRing<T>(s: State<T>)
    requires Inv(s) && s.used == |s.ring| && IsFull(s.blocks[s.tailBlock])
    ensures AllOk(s.blocks) && Ids(s.blocks, s.ring) && 0 < s.used
        && |Concat(s.blocks, s.ring, s.used)| == |s.enq| - |s.deq|
    ensures forall i :: 0 <= i < |s.ring| ==> s.ring[i] < |s.blocks|
    ensures forall i :: 0 < i < s.used ==> IsFull(s.blocks[s.ring[i]])
    ensures IsFull(s.blocks[s.ring[s.used - 1]])
  {
    hide IsFull, Concat, ProducerInv, ConsumerInv, Cells;
  }

  /** Seeing the tail block full with no spare block behind it means the queue holds m elements. */
  lemma FullHolds<T>(s: State<T>, w: nat, m: nat)
    requires Inv(s) && Roomy(s, w, m) && s.used == |s.ring| && IsFull(s.blocks[s.tailBlock])
    ensures m <= |s.enq| - |s.deq|
  {
    hide Inv, IsFull, Concat, Tables, AllOk, Ids;
    FullRing(s);
    FullSum(s.blocks, s.ring, s.used, w);
    if s.used == 1 { OneFull(s.blocks, s.ring, w); }
  }

  lemma MoreBlocks(n: nat, w: nat)
    ensures Max1(n - 1) * w <= Max1(n) * w
  {
    if 1 <= n - 1 {
      assert n * w == (n - 1) * w + w;
    }
  }

  /** The steps that change no block's size and neither the ring's length nor the recorded count. */
  ghost predicate SameSizes<T>(s: State<T>, s': State<T>) {
    && |s'.blocks| == |s.blocks| && (forall i :: 0 <= i < |s.blocks| ==> s'.blocks[i].size == s.blocks[i].size)
    && s'.largest == s.largest && |s'.ring| == |s.ring| && s'.used <= s.used && s'.heldAtFull == s.heldAtFull
    && (s'.prod.PCheckNext? ==> s.prod.PCheckNext?)
  }

  lemma ProducerSizes<T>(s: State<T>, x: T, canAlloc: bool, mallocOk: bool, junk: T)
    requires Indexed(s) && !s.prod.PReadFront? && !s.prod.PAlloc? && !s.prod.PLink? && !s.prod.PAdvance?
    ensures SameSizes(s, ProducerStep(s, x, canAlloc, mallocOk, junk))
  {
    assert s.blocks[s.tailBlock].next < |s.blocks|;
    hide Tables, Succ;
  }

  lemma ConsumerSizes<T>(s: State<T>, peek: bool)
    requires Indexed(s)
    ensures SameSizes(s, ConsumerStep(s, peek))
  {
    hide Tables, Succ;
  }

  lemma ReadFrontStaysRoomy<T>(s: State<T>, w: nat, m: nat)
    requires Inv(s) && Roomy(s, w, m) && s.prod.PReadFront?
    ensures Roomy(ReadFront(s), w, m)
  {
    var tb := s.blocks[s.tailBlock];
    if s.used == |s.ring| && Succ(tb.tail, tb.size) == tb.front {
      FullHolds(s, w, m);
    }
    assert Indexed(s);
    hide Inv, Tables, Succ;
  }

  lemma AllocStaysRoomy<T>(s: State<T>, mallocOk: bool, junk: T, w: nat, m: nat)
    requires Indexed(s) && Roomy(s, w, m) && s.prod.PAlloc?
    ensures Roomy(Alloc(s, mallocOk, junk), w, m)
  {
  }

  lemma LinkStaysRoomy<T>(s: State<T>, w: nat, m: nat)
    requires Indexed(s) && Roomy(s, w, m) && (s.prod.PLink? || s.prod.PAdvance?)
    ensures s.prod.PLink? ==> Roomy(LinkBlock(s), w, m)
    ensures s.prod.PAdvance? ==> Roomy(AdvanceTail(s), w, m)
  {
    hide Tables;
    MoreBlocks(|s.ring|, w);
  }

  lemma ProducerStaysRoomy<T>(s: State<T>, x: T, canAlloc: bool, mallocOk: bool, junk: T, w: nat, m: nat)
    requires Inv(s) && Roomy(s, w, m)
    ensures Roomy(ProducerStep(s, x, canAlloc, mallocOk, junk), w, m)
  {
    hide Inv, Roomy, ReadFront, LinkBlock, AdvanceTail, Alloc, StartEnqueue, WriteTail, PublishTail, CheckNext,
         ReadNextFront, WriteNext, PublishNext, Tables;
    IsIndexed(s);
    match s.prod
    case PReadFront(_, _) => ReadFrontStaysRoomy(s, w, m);
    case PLink(_, _) => LinkStaysRoomy(s, w, m);
    case PAdvance(_, _) => LinkStaysRoomy(s, w, m);
    case PAlloc(_) => AllocStaysRoomy(s, mallocOk, junk, w, m);
    case _ => RestStaysRoomy(s, x, canAlloc, mallocOk, junk, w, m);
  }

  lemma RestStaysRoomy<T>(s: State<T>, x: T, canAlloc: bool, mallocOk: bool, junk: T, w: nat, m: nat)
    requires Indexed(s) && Roomy(s, w, m)
    requires !s.prod.PReadFront? && !s.prod.PAlloc? && !s.prod.PLink? && !s.prod.PAdvance?
    ensures Roomy(ProducerStep(s, x, canAlloc, mallocOk, junk), w, m)
  {
    ProducerSizes(s, x, canAlloc, mallocOk, junk);
    hide Tables, ProducerStep;
  }

  lemma ConsumerStaysRoomy<T>(s: State<T>, peek: bool, w: nat, m: nat)
    requires Inv(s) && Roomy(s, w, m)
    ensures Roomy(ConsumerStep(s, peek), w, m)
  {
    ConsumerSizes(s, peek);
    assert s.used <= |s.ring| && ConsumerStep(s, peek).prod == s.prod by { ConsumerRankFalls(s, peek); }
    hide Inv, ConsumerStep;
  }

  lemma {:induction false} RunStaysRoomy<T>(s: State<T>, run: seq<Choice<T>>, w: nat, m: nat)
    requires Inv(s) && Roomy(s, w, m)
    ensures Roomy(Exec(s, run), w, m)
    decreases |run|
  {
    if run != [] {
      StepKeepsInv(s, run[0]);
      match run[0] {
        case Produce(x, canAlloc, mallocOk, junk) => ProducerStaysRoomy(s, x, canAlloc, mallocOk, junk, w, m);
        case Consume(peek) => ConsumerStaysRoomy(s, peek, w, m);
      }
      hide Inv, Roomy;
      RunStaysRoomy(Step(s, run[0]), run[1..], w, m);
    }
  }

  /** The sizes of the blocks that growth adds one after another: each twice the one before, up to a limit. */
  function Grown(size: nat, k: nat): nat { if k == 0 then size else NextSize(Grown(size, k - 1)) }

  /** n blocks from the constructor, and then the blocks that growth has added. */
  ghost predicate SizedBy<T>(s: State<T>, n: nat, size: nat) {
    && n <= |s.blocks| && s.largest == Grown(size, |s.blocks| - n)
    && forall i :: 0 <= i < |s.blocks| ==> s.blocks[i].size == Grown(size, if i < n then 0 else i - n + 1)
  }

  lemma ProducerKeepsSized<T>(s: State<T>, x: T, canAlloc: bool, mallocOk: bool, junk: T, n: nat, size: nat)
    requires Indexed(s) && SizedBy(s, n, size)
    ensures SizedBy(ProducerStep(s, x, canAlloc, mallocOk, junk), n, size)
  {
    hide Tables, Succ;
    if s.prod.PReadFront? || s.prod.PLink? || s.prod.PAdvance? {
      LinkKeepsSizes(s);
    } else if !s.prod.PAlloc? {
      ProducerSizes(s, x, canAlloc, mallocOk, junk);
      hide ProducerStep;
    }
  }

  lemma LinkKeepsSizes<T>(s: State<T>)
    requires Indexed(s) && (s.prod.PReadFront? || s.prod.PLink? || s.prod.PAdvance?)
    ensures
      var s' :=
        if s.prod.PReadFront? then ReadFront(s) else if s.prod.PLink? then LinkBlock(s) else AdvanceTail(s);
      && |s'.blocks| == |s.blocks| && s'.largest == s.largest
      && forall i :: 0 <= i < |s.blocks| ==> s'.blocks[i].size == s.blocks[i].size
  {
    hide Tables, Succ;
  }

  lemma {:induction false} RunKeepsSized<T>(s: State<T>, run: seq<Choice<T>>, n: nat, size: nat)
    requires Inv(s) && SizedBy(s, n, size)
    ensures SizedBy(Exec(s, run), n, size)
    decreases |run|
  {
    hide Inv, SizedBy, SameSizes;
    if run != [] {
      IsIndexed(s);
      StepKeepsInv(s, run[0]);
      match run[0] {
        case Produce(x, canAlloc, mallocOk, junk) => ProducerKeepsSized(s, x, canAlloc, mallocOk, junk, n, size);
        case Consume(peek) => ConsumerKeepsSized(s, peek, n, size);
      }
      hide Step;
      RunKeepsSized(Step(s, run[0]), run[1..], n, size);
    }
  }

  lemma ConsumerKeepsSized<T>(s: State<T>, peek: bool, n: nat, size: nat)
    requires Indexed(s) && SizedBy(s, n, size)
    ensures SizedBy(ConsumerStep(s, peek), n, size)
  {
    ConsumerSizes(s, peek);
    hide ConsumerStep, Tables;
  }

  /** A first size doubled k times, but no more than the limit unless it is over that itself. */
  function Doubled(size: nat, k: nat): nat {
    var d: nat := size * Bits.Pow2(k);
    if size >= MAX_BLOCK_SIZE then size else if d <= MAX_BLOCK_SIZE then d else MAX_BLOCK_SIZE
  }

  lemma {:induction false} GrownIsDoubled(size: nat, k: nat)
    requires Bits.IsPow2(size)
    ensures Bits.IsPow2(Grown(size, k)) && Grown(size, k) == Doubled(size, k)
  {
    if k != 0 {
      GrownIsDoubled(size, k - 1);
      NextIsPow2(Grown(size, k - 1));
      DoubledOnce(size, k);
      hide Doubled;
    }
  }

  lemma DoubledOnce(size: nat, k: nat)
    requires 0 < k
    ensures var g := Doubled(size, k - 1);
      Doubled(size, k) == if g >= MAX_BLOCK_SIZE then g else if 2 * g <= MAX_BLOCK_SIZE then 2 * g else MAX_BLOCK_SIZE
  {
    var d, p := size * Bits.Pow2(k - 1), Bits.Pow2(k - 1);
    assert size * Bits.Pow2(k) == 2 * d by {
      assert Bits.Pow2(k) == 2 * p;
      hide *;
      assert size * (2 * p) == 2 * (size * p);
    }
    hide Bits.Pow2;
  }

  lemma NextIsPow2(size: nat)
    requires Bits.IsPow2(size)
    ensures Bits.IsPow2(NextSize(size)) && (size < MAX_BLOCK_SIZE ==> 2 * size <= MAX_BLOCK_SIZE)
  {
    var n: nat :| n <= size && size == Bits.Pow2(n);
    if size < MAX_BLOCK_SIZE {
      LimitIsPow2(n);
      assert Bits.Pow2(n + 1) == 2 * size;
    }
  }

  /** The limit is a power of two, so that doubling a smaller one cannot pass it. */
  lemma LimitIsPow2(n: nat)
    requires Bits.Pow2(n) < MAX_BLOCK_SIZE
    ensures 2 * Bits.Pow2(n) <= MAX_BLOCK_SIZE
  {
    assert Bits.Pow2(9) == MAX_BLOCK_SIZE;
    if n >= 9 { Bits.Pow2Monotone(9, n); } else { Bits.Pow2Monotone(n, 8); }
  }

  /** After any run of a new queue of n blocks, the first n still have the size the constructor chose, and a block added
      after k others has that size doubled k + 1 times, but no more than the limit (unless the first size is); every
      size is a power of two, which `sizeMask` needs. */
  lemma BlockSizes<T>(s0: State<T>, n: nat, size: nat, run: seq<Choice<T>>, i: nat)
    requires Initial(s0, n, size) && Bits.IsPow2(size)
    ensures Inv(s0)
    ensures var s := Exec(s0, run);
      i < |s.blocks| ==>
        && Bits.IsPow2(s.blocks[i].size)
        && s.blocks[i].size == if i < n then size else Doubled(size, i - n + 1)
  {
    hide Bits.IsPow2, Inv;
    InitialInv(s0, n, size);
    RunKeepsSized(s0, run, n, size);
    GrownIsDoubled(size, if i < n then 0 else i - n + 1);
    hide Doubled;
    hide Initial;
  }

  /** The block size and the number of blocks the constructor chooses, given the rounded-up request. */
  function BlockSize(rounded: nat): nat {
    if MAX_BLOCK_SIZE * 2 < rounded then MAX_BLOCK_SIZE else rounded
  }

  function BlockCount(maxSize: nat, rounded: nat): nat {
    if MAX_BLOCK_SIZE * 2 < rounded then (maxSize + MAX_BLOCK_SIZE * 2 - 3) / (MAX_BLOCK_SIZE - 1) else 1
  }

  lemma ConstructedRoom(maxSize: nat, rounded: nat)
    requires 1 <= maxSize < rounded
    ensures 1 <= BlockCount(maxSize, rounded) && 2 <= BlockSize(rounded)
    ensures maxSize <= Max1(BlockCount(maxSize, rounded) - 1) * (BlockSize(rounded) - 1)
  {
  }

  /** A queue built for maxSize elements refuses `try_enqueue` only after a call that saw its tail block
      full while the queue held at least maxSize elements. */
  lemma RefusalMeansCapacity<T>(s0: State<T>, maxSize: nat, rounded: nat, run: seq<Choice<T>>)
    requires 1 <= maxSize < rounded && 2 <= BlockSize(rounded)
    requires Initial(s0, BlockCount(maxSize, rounded), BlockSize(rounded))
    ensures Inv(s0)
    ensures var s := Exec(s0, run);
      s.prod.PCheckNext? && CheckNext(s).reply.Full? && CheckNext(s).prod.PIdle? ==> maxSize <= s.heldAtFull
  {
    InitialInv(s0, BlockCount(maxSize, rounded), BlockSize(rounded));
    ConstructedRoom(maxSize, rounded);
    RunStaysRoomy(s0, run, BlockSize(rounded) - 1, maxSize);
    var s := Exec(s0, run);
    if s.prod.PCheckNext? && CheckNext(s).prod.PIdle? {
      NextOfTail(s);
    }
  }

  /** At some moment before the end of the run the queue holds at least m elements. */
  ghost predicate HoldsOnce<T>(s: State<T>, run: seq<Choice<T>>, m: int)
    requires Inv(s)
    decreases |run|
  {
    run != [] && (m <= |s.enq| - |s.deq| || HoldsOnce(Next(s, run[0]), run[1..], m))
  }

  lemma CheckNextFrom<T>(s: State<T>, c: Choice<T>)
    requires Indexed(s) && |s.deq| <= |s.enq|
    ensures Step(s, c).prod.PCheckNext? ==>
      || (s.prod.PReadFront? && Step(s, c).heldAtFull == |s.enq| - |s.deq|)
      || (s.prod.PCheckNext? && Step(s, c).heldAtFull == s.heldAtFull)
  {
    hide Tables, Succ, NewBlock, Inserted, Rotated;
    match c
    case Produce(y, mayAlloc, mallocOk, junk) => hide ConsumerStep;
    case Consume(peek) => hide ProducerStep;
  }

  lemma RefusesFull<T>(s: State<T>, c: Choice<T>, w: nat, m: nat)
    requires Inv(s) && Roomy(s, w, m) && !s.prod.PIdle? && Step(s, c).prod.PIdle? && Step(s, c).reply.Full?
    ensures s.prod.PCheckNext? && m <= s.heldAtFull
  {
    IsIndexed(s);
    assert c.Produce? by { if c.Consume? { ConsumerRankFalls(s, c.peek); } }
    EndsFull(s, c);
    NextOfTail(s);
    hide Inv, ProducerStep;
  }

  lemma EndsFull<T>(s: State<T>, c: Choice<T>)
    requires Indexed(s) && c.Produce? && !s.prod.PIdle? && Step(s, c).prod.PIdle? && Step(s, c).reply.Full?
    ensures s.prod.PCheckNext? && s.blocks[s.tailBlock].next == s.frontBlock
  {
    hide Tables, Succ, NewBlock, Inserted;
  }

  lemma StepStaysRoomy<T>(s: State<T>, c: Choice<T>, w: nat, m: nat)
    requires Inv(s) && Roomy(s, w, m)
    ensures Roomy(Step(s, c), w, m) && |s.deq| <= |s.enq|
  {
    hide Inv, Roomy;
    DeqBound(s);
    match c
    case Produce(x, canAlloc, mallocOk, junk) => ProducerStaysRoomy(s, x, canAlloc, mallocOk, junk, w, m);
    case Consume(peek) => ConsumerStaysRoomy(s, peek, w, m);
  }

  lemma {:induction false} FullSaw<T>(s: State<T>, run: seq<Choice<T>>, w: nat, m: nat)
    requires Inv(s) && Roomy(s, w, m) && !s.prod.PIdle? && EndsEnqueue(s, run) && Exec(s, run).reply.Full?
    ensures HoldsOnce(s, run, m) || (s.prod.PCheckNext? && m <= s.heldAtFull)
    decreases |run|
  {
    hide Step, Inv, Roomy;
    IsIndexed(s);
    StepKeepsInv(s, run[0]);
    StepStaysRoomy(s, run[0], w, m);
    var s' := Step(s, run[0]);
    if |run| == 1 {
      assert run[1..] == [];
      RefusesFull(s, run[0], w, m);
    } else {
      FullSaw(s', run[1..], w, m);
      CheckNextFrom(s, run[0]);
    }
  }

  /** The capacity the constructor promises, told of whole calls: after any run of a queue built for maxSize, a
      call that refuses for lack of room has met a moment at which the queue held at least maxSize elements. */
  lemma FullMeansCapacity<T>(s0: State<T>, maxSize: nat, rounded: nat, before: seq<Choice<T>>, call: seq<Choice<T>>)
    requires 1 <= maxSize < rounded && 2 <= BlockSize(rounded)
    requires Initial(s0, BlockCount(maxSize, rounded), BlockSize(rounded))
    ensures Inv(s0)
    ensures var s := Exec(s0, before);
      s.prod.PIdle? && EndsEnqueue(s, call) && call[0].Produce? && Exec(s, call).reply.Full? ==>
        HoldsOnce(s, call, maxSize)
  {
    hide Inv, Step, Roomy, HoldsOnce;
    InitialInv(s0, BlockCount(maxSize, rounded), BlockSize(rounded));
    StartsRoomy(s0, maxSize, rounded);
    var w := BlockSize(rounded) - 1;
    RunStaysRoomy(s0, before, w, maxSize);
    var s := Exec(s0, before);
    if s.prod.PIdle? && EndsEnqueue(s, call) && call[0].Produce? && Exec(s, call).reply.Full? {
      FullCall(s, call, w, maxSize);
    }
  }

  lemma StartsRoomy<T>(s0: State<T>, maxSize: nat, rounded: nat)
    requires 1 <= maxSize < rounded && 2 <= BlockSize(rounded)
    requires Initial(s0, BlockCount(maxSize, rounded), BlockSize(rounded))
    ensures Roomy(s0, BlockSize(rounded) - 1, maxSize)
  {
    ConstructedRoom(maxSize, rounded);
  }

  lemma FullCall<T>(s: State<T>, run: seq<Choice<T>>, w: nat, m: nat)
    requires Inv(s) && Roomy(s, w, m) && s.prod.PIdle? && EndsEnqueue(s, run) && run[0].Produce?
    requires Exec(s, run).reply.Full?
    ensures HoldsOnce(s, run, m)
  {
    hide Inv, Step, Roomy;
    IsIndexed(s);
    StepKeepsInv(s, run[0]);
    StepStaysRoomy(s, run[0], w, m);
    StartsAsked(s, run[0]);
    var s' := Step(s, run[0]);
    FullSaw(s', run[1..], w, m);
    CheckNextFrom(s, run[0]);
  }

  /** What a call records as held is what the queue holds when the call loads the front of a full tail block. */
  lemma HeldIsContents<T>(s: State<T>)
    requires Inv(s) && s.prod.PReadFront? && ReadFront(s).prod.PCheckNext?
    ensures ReadFront(s).heldAtFull == |Concat(s.blocks, s.ring, s.used)|
  {
  }

  /** The rounded-up request leaves room for the spare slot of the block. */
  method RoundUp(maxSize: nat) returns (rounded: nat)
    requires 1 <= maxSize < Bits.HALF
    ensures maxSize < rounded < 2 * (maxSize + 1) && Bits.IsPow2(rounded)
  {
    rounded := Bits.CeilToPow2(maxSize + 1);
    ghost var n: nat :| rounded == Bits.Pow2(n);
    assert n != 0 && Bits.Pow2(n) == 2 * Bits.Pow2(n - 1);
    Bits.Pow2Above(n - 1);
    assert Bits.IsPow2(Bits.Pow2(n - 1));
  }
}
