/** The single-producer/single-consumer queue (readerwriterqueue.h) as a step machine of two threads.

    A step is one access to a variable that the other thread may touch at the same time; accesses to
    variables that only the stepping thread writes are folded into the neighbouring step. A run is any
    interleaving of producer and consumer steps over sequentially consistent memory. The blocks form a
    ring: `ring` lists their ids from the front block on, and the first `used` of them reach the tail block. */
module SpscMachine {

  const MAX_BLOCK_SIZE: nat := 512

  /** `data` holds the raw cells, `alive[c]` says whether cell c holds a constructed element. */
  datatype Block<T> = Block(size: nat, front: nat, tail: nat, localFront: nat, localTail: nat,
                            next: nat, data: seq<T>, alive: seq<bool>)

  datatype Producer<T> =
    | PIdle
    | PReadFront(x: T, canAlloc: bool)       // looks full through the shadow: load the real front
    | PWrite(x: T)                           // construct the element in the tail block
    | PPublish(x: T)                         // store the new tail
    | PCheckNext(x: T, canAlloc: bool)       // compare tail->next with frontBlock
    | PReadNextFront(x: T)                   // a spare block is ahead: load its front
    | PWriteNext(x: T, nb: nat)
    | PPublishNext(x: T, nb: nat)
    | PAlloc(x: T)
    | PLink(x: T, nb: nat)                   // store tail->next
    | PAdvance(x: T, nb: nat)                // store tailBlock

  datatype Consumer<T> =
    | CIdle
    | CReadTail(peek: bool)                  // empty through the shadow: load the real tail
    | CReadTailBlock(peek: bool)             // compare with tailBlock
    | CRecheck(peek: bool)                   // load the tail of the front block once more
    | CReadNext(peek: bool)
    | CReadNextTail(peek: bool, nb: nat)     // load next->tail; the block must not be empty
    | CAdvance(nb: nat)                      // store frontBlock
    | CTake(peek: bool)                      // move the element out (or point at it)
    | CRelease(v: T)                         // store the new front

  /** What the last finished consumer call answered. */
  datatype Answer<T> = NoAnswer | Refused | Took(v: T) | Peeked(v: T)

  /** What the last finished producer call answered. */
  datatype Reply = NoReply | Accepted | Full | NoMemory

  /** `ring`, `used`, `enq`, `deq`, `heldAtFull` and `sawEmpty` are bookkeeping for the proofs: no step's control
      flow or shared write depends on them. */
  datatype State<T> = State(
    blocks: seq<Block<T>>, frontBlock: nat, tailBlock: nat, largest: nat,
    prod: Producer<T>, cons: Consumer<T>, reply: Reply, answer: Answer<T>,
    ring: seq<nat>, used: nat, enq: seq<T>, deq: seq<T>, heldAtFull: nat, sawEmpty: bool)

  /** What the environment decides: the call a thread starts when idle, and whether malloc succeeds. */
  datatype Choice<T> =
    | Produce(x: T, canAlloc: bool, mallocOk: bool, junk: T)
    | Consume(peek: bool)

  // ---- circular buffers ------------------------------------------------------------------

  /** `(i + 1) & sizeMask` for an index of a block whose size is a power of two (see Bits). */
  function Succ(i: nat, size: nat): nat { if i + 1 == size then 0 else i + 1 }

  /** The number of steps from index a forward to index b. */
  function Dist(a: nat, b: nat, size: nat): int { if a <= b then b - a else b + size - a }

  predicate BlockOk<T>(b: Block<T>) {
    && 2 <= b.size && |b.data| == b.size && |b.alive| == b.size
    && b.front < b.size && b.tail < b.size && b.localFront < b.size && b.localTail < b.size
    && Dist(b.front, b.localTail, b.size) <= Dist(b.front, b.tail, b.size)
    && Dist(b.front, b.tail, b.size) <= Dist(b.localFront, b.tail, b.size)
  }

  ghost function Elems<T>(b: Block<T>): (es: seq<T>)
    requires b.front <= |b.data| && b.tail <= |b.data|
  {
    if b.front <= b.tail then b.data[b.front..b.tail] else b.data[b.front..] + b.data[..b.tail]
  }

  predicate AllOk<T>(blocks: seq<Block<T>>) {
    forall i :: 0 <= i < |blocks| ==> BlockOk(blocks[i])
  }

  ghost predicate Ids<T>(blocks: seq<Block<T>>, ids: seq<nat>) {
    forall i :: 0 <= i < |ids| ==> ids[i] < |blocks|
  }

  /** The elements of the first k blocks of the ring. */
  ghost function Concat<T>(blocks: seq<Block<T>>, ring: seq<nat>, k: nat): seq<T>
    requires AllOk(blocks) && Ids(blocks, ring) && k <= |ring|
  {
    if k == 0 then [] else Concat(blocks, ring, k - 1) + Elems(blocks[ring[k - 1]])
  }

  // ---- steps ----------------------------------------------------------------------------

  function NewBlock<T>(size: nat, next: nat, x: T, junk: T): Block<T>
    requires 2 <= size
  {
    Block(size, 0, 1, 0, 1, next, [x] + seq(size - 1, _ => junk), [true] + seq(size - 1, _ => false))
  }

  predicate Tables<T>(blocks: seq<Block<T>>) {
    AllOk(blocks) && forall i :: 0 <= i < |blocks| ==> blocks[i].next < |blocks|
  }

  predicate Indexed<T>(s: State<T>) {
    && s.frontBlock < |s.blocks| && s.tailBlock < |s.blocks| && 2 <= s.largest && 0 < s.used <= |s.ring|
    && Tables(s.blocks) && PcOk(s)
  }

  predicate PcOk<T>(s: State<T>) {
    && (s.prod.PWriteNext? || s.prod.PPublishNext? || s.prod.PLink? || s.prod.PAdvance? ==> s.prod.nb < |s.blocks|)
    && (s.cons.CReadNextTail? || s.cons.CAdvance? ==> s.cons.nb < |s.blocks|)
  }

  function Inserted(ring: seq<nat>, k: nat, nb: nat): seq<nat>
    requires k <= |ring|
  {
    ring[..k] + [nb] + ring[k..]
  }

  function Rotated(ring: seq<nat>): seq<nat>
    requires ring != []
  {
    ring[1..] + [ring[0]]
  }

  // The steps of inner_enqueue.

  function StartEnqueue<T>(s: State<T>, x: T, canAlloc: bool): State<T>
    requires Indexed(s)
  {
    var tb := s.blocks[s.tailBlock];
    if Succ(tb.tail, tb.size) != tb.localFront then s.(prod := PWrite(x)) else s.(prod := PReadFront(x, canAlloc))
  }

  function ReadFront<T>(s: State<T>): State<T>
    requires Indexed(s) && s.prod.PReadFront?
  {
    var tb := s.blocks[s.tailBlock];
    var room := Succ(tb.tail, tb.size) != tb.front;
    s.(blocks := s.blocks[s.tailBlock := tb.(localFront := tb.front)],
       prod := if room then PWrite(s.prod.x) else PCheckNext(s.prod.x, s.prod.canAlloc),
       heldAtFull := if room || |s.enq| < |s.deq| then s.heldAtFull else |s.enq| - |s.deq|)
  }

  function WriteTail<T>(s: State<T>): State<T>
    requires Indexed(s) && s.prod.PWrite?
  {
    var tb := s.blocks[s.tailBlock];
    var tb' := tb.(data := tb.data[tb.tail := s.prod.x], alive := tb.alive[tb.tail := true]);
    s.(blocks := s.blocks[s.tailBlock := tb'], prod := PPublish(s.prod.x))
  }

  function PublishTail<T>(s: State<T>): State<T>
    requires Indexed(s) && s.prod.PPublish?
  {
    var tb := s.blocks[s.tailBlock];
    s.(blocks := s.blocks[s.tailBlock := tb.(tail := Succ(tb.tail, tb.size))],
       prod := PIdle, reply := Accepted, enq := s.enq + [s.prod.x])
  }

  function CheckNext<T>(s: State<T>): State<T>
    requires Indexed(s) && s.prod.PCheckNext?
  {
    if s.blocks[s.tailBlock].next != s.frontBlock then s.(prod := PReadNextFront(s.prod.x))
    else if s.prod.canAlloc then s.(prod := PAlloc(s.prod.x))
    else s.(prod := PIdle, reply := Full)
  }

  function ReadNextFront<T>(s: State<T>): State<T>
    requires Indexed(s) && s.prod.PReadNextFront?
  {
    var nb := s.blocks[s.tailBlock].next;
    s.(blocks := s.blocks[nb := s.blocks[nb].(localFront := s.blocks[nb].front)], prod := PWriteNext(s.prod.x, nb))
  }

  function WriteNext<T>(s: State<T>): State<T>
    requires Indexed(s) && s.prod.PWriteNext?
  {
    var n := s.blocks[s.prod.nb];
    var n' := n.(data := n.data[n.tail := s.prod.x], alive := n.alive[n.tail := true]);
    s.(blocks := s.blocks[s.prod.nb := n'], prod := PPublishNext(s.prod.x, s.prod.nb))
  }

  function PublishNext<T>(s: State<T>): State<T>
    requires Indexed(s) && s.prod.PPublishNext?
  {
    var n := s.blocks[s.prod.nb];
    s.(blocks := s.blocks[s.prod.nb := n.(tail := Succ(n.tail, n.size))], prod := PAdvance(s.prod.x, s.prod.nb))
  }

  /** The size of the next block to be allocated. */
  function NextSize(largest: nat): nat { if largest >= MAX_BLOCK_SIZE then largest else largest * 2 }

  function Alloc<T>(s: State<T>, mallocOk: bool, junk: T): State<T>
    requires Indexed(s) && s.prod.PAlloc?
  {
    if !mallocOk then s.(prod := PIdle, reply := NoMemory)
    else
      var size := NextSize(s.largest);
      s.(blocks := s.blocks + [NewBlock(size, s.blocks[s.tailBlock].next, s.prod.x, junk)], largest := size,
         prod := PLink(s.prod.x, |s.blocks|))
  }

  function LinkBlock<T>(s: State<T>): State<T>
    requires Indexed(s) && s.prod.PLink?
  {
    var tb := s.blocks[s.tailBlock];
    s.(blocks := s.blocks[s.tailBlock := tb.(next := s.prod.nb)],
       ring := Inserted(s.ring, s.used, s.prod.nb), prod := PAdvance(s.prod.x, s.prod.nb))
  }

  function AdvanceTail<T>(s: State<T>): State<T>
    requires Indexed(s) && s.prod.PAdvance?
  {
    s.(tailBlock := s.prod.nb, used := s.used + 1, prod := PIdle, reply := Accepted, enq := s.enq + [s.prod.x])
  }

  /** One step of `inner_enqueue`; an idle producer starts a call. */
  function ProducerStep<T>(s: State<T>, x: T, canAlloc: bool, mallocOk: bool, junk: T): State<T>
    requires Indexed(s)
  {
    match s.prod
    case PIdle => StartEnqueue(s, x, canAlloc)
    case PReadFront(_, _) => ReadFront(s)
    case PWrite(_) => WriteTail(s)
    case PPublish(_) => PublishTail(s)
    case PCheckNext(_, _) => CheckNext(s)
    case PReadNextFront(_) => ReadNextFront(s)
    case PWriteNext(_, _) => WriteNext(s)
    case PPublishNext(_, _) => PublishNext(s)
    case PAlloc(_) => Alloc(s, mallocOk, junk)
    case PLink(_, _) => LinkBlock(s)
    case PAdvance(_, _) => AdvanceTail(s)
  }

  // The steps of try_dequeue, pop and peek.

  function StartDequeue<T>(s: State<T>, peek: bool): State<T>
    requires Indexed(s)
  {
    var fb := s.blocks[s.frontBlock];
    if fb.front != fb.localTail then s.(cons := CTake(peek)) else s.(cons := CReadTail(peek))
  }

  function ReadTail<T>(s: State<T>): State<T>
    requires Indexed(s) && s.cons.CReadTail?
  {
    var fb := s.blocks[s.frontBlock];
    var some := fb.front != fb.tail;
    s.(blocks := s.blocks[s.frontBlock := fb.(localTail := fb.tail)],
       cons := if some then CTake(s.cons.peek) else CReadTailBlock(s.cons.peek),
       sawEmpty := if some then s.sawEmpty else |s.enq| == |s.deq|)
  }

  function ReadTailBlock<T>(s: State<T>): State<T>
    requires Indexed(s) && s.cons.CReadTailBlock?
  {
    if s.frontBlock != s.tailBlock then s.(cons := CRecheck(s.cons.peek)) else s.(cons := CIdle, answer := Refused)
  }

  function Recheck<T>(s: State<T>): State<T>
    requires Indexed(s) && s.cons.CRecheck?
  {
    var fb := s.blocks[s.frontBlock];
    s.(blocks := s.blocks[s.frontBlock := fb.(localTail := fb.tail)],
       cons := if fb.front != fb.tail then CTake(s.cons.peek) else CReadNext(s.cons.peek))
  }

  function ReadNext<T>(s: State<T>): State<T>
    requires Indexed(s) && s.cons.CReadNext?
  {
    s.(cons := CReadNextTail(s.cons.peek, s.blocks[s.frontBlock].next))
  }

  function ReadNextTail<T>(s: State<T>): State<T>
    requires Indexed(s) && s.cons.CReadNextTail?
  {
    var n := s.blocks[s.cons.nb];
    if s.cons.peek then s.(cons := CIdle, answer := Peeked(n.data[n.front]))
    else s.(blocks := s.blocks[s.cons.nb := n.(localTail := n.tail)], cons := CAdvance(s.cons.nb))
  }

  function AdvanceFront<T>(s: State<T>): State<T>
    requires Indexed(s) && s.cons.CAdvance?
  {
    s.(frontBlock := s.cons.nb, ring := Rotated(s.ring), used := s.used - 1, cons := CTake(false))
  }

  function Take<T>(s: State<T>): State<T>
    requires Indexed(s) && s.cons.CTake?
  {
    var fb := s.blocks[s.frontBlock];
    if s.cons.peek then s.(cons := CIdle, answer := Peeked(fb.data[fb.front]))
    else s.(blocks := s.blocks[s.frontBlock := fb.(alive := fb.alive[fb.front := false])],
            cons := CRelease(fb.data[fb.front]))
  }

  function Release<T>(s: State<T>): State<T>
    requires Indexed(s) && s.cons.CRelease?
  {
    var fb := s.blocks[s.frontBlock];
    s.(blocks := s.blocks[s.frontBlock := fb.(front := Succ(fb.front, fb.size))],
       cons := CIdle, answer := Took(s.cons.v), deq := s.deq + [s.cons.v])
  }

  /** One step of `try_dequeue` (or `pop`), or of `peek`; an idle consumer starts a call. */
  function ConsumerStep<T>(s: State<T>, peek: bool): State<T>
    requires Indexed(s)
  {
    match s.cons
    case CIdle => StartDequeue(s, peek)
    case CReadTail(_) => ReadTail(s)
    case CReadTailBlock(_) => ReadTailBlock(s)
    case CRecheck(_) => Recheck(s)
    case CReadNext(_) => ReadNext(s)
    case CReadNextTail(_, _) => ReadNextTail(s)
    case CAdvance(_) => AdvanceFront(s)
    case CTake(_) => Take(s)
    case CRelease(_) => Release(s)
  }

  function Step<T>(s: State<T>, c: Choice<T>): State<T>
    requires Indexed(s)
  {
    match c
    case Produce(x, canAlloc, mallocOk, junk) => ProducerStep(s, x, canAlloc, mallocOk, junk)
    case Consume(peek) => ConsumerStep(s, peek)
  }

  // ---- invariant: the ring -----------------------------------------------------------------

  ghost predicate NoDup(ids: seq<nat>) {
    forall i, j :: 0 <= i < j < |ids| ==> ids[i] != ids[j]
  }

  ghost predicate Linked<T>(blocks: seq<Block<T>>, ring: seq<nat>)
    requires Ids(blocks, ring)
  {
    forall i, j :: 0 <= i < |ring| && 0 <= j < |ring| && j == (if i + 1 == |ring| then 0 else i + 1) ==>
      blocks[ring[i]].next == ring[j]
  }

  ghost predicate RingOk<T>(blocks: seq<Block<T>>, ring: seq<nat>, k: nat) {
    Tables(blocks) && 0 < k <= |ring| && Ids(blocks, ring) && NoDup(ring) && Linked(blocks, ring)
  }

  ghost predicate IsEmpty<T>(b: Block<T>) { b.front == b.tail }

  ghost predicate IsFull<T>(b: Block<T>) { Succ(b.tail, b.size) == b.front }

  /** Blocks between the ends are full, the tail block is not empty unless it is the front block too,
      and spare blocks are empty, but for one the producer has filled and not yet moved to. */
  ghost predicate Filling<T>(blocks: seq<Block<T>>, ring: seq<nat>, k: nat, pending: seq<T>)
    requires AllOk(blocks) && Ids(blocks, ring)
  {
    && (forall i :: 0 < i < k && i < |ring| ==> !IsEmpty(blocks[ring[i]]))
    && (forall i :: 0 < i < k - 1 && i < |ring| ==> IsFull(blocks[ring[i]]))
    && (forall i :: k < i < |ring| ==> IsEmpty(blocks[ring[i]]))
    && (k < |ring| ==> Elems(blocks[ring[k]]) == pending)
  }

  ghost predicate RingInv<T>(blocks: seq<Block<T>>, ring: seq<nat>, k: nat, pending: seq<T>) {
    RingOk(blocks, ring, k) && Filling(blocks, ring, k, pending)
  }

  /** The cells of `b` holding a constructed element: those between front and tail, except the front one
      once `moved` out, and the one at the tail once `written`. */
  ghost predicate BlockCells<T>(b: Block<T>, moved: bool, written: bool)
    requires BlockOk(b)
  {
    forall c :: 0 <= c < b.size ==>
      (b.alive[c] <==>
       || (Dist(b.front, c, b.size) < Dist(b.front, b.tail, b.size) && !(moved && c == b.front))
       || (written && c == b.tail))
  }

  ghost predicate Cells<T>(blocks: seq<Block<T>>, moved: int, written: int)
    requires AllOk(blocks)
  {
    forall id :: 0 <= id < |blocks| ==> BlockCells(blocks[id], id == moved, id == written)
  }

  // ---- invariant: the whole state --------------------------------------------------------------

  ghost function Pending<T>(s: State<T>): seq<T> { if s.prod.PAdvance? then [s.prod.x] else [] }

  ghost function Moved<T>(s: State<T>): int { if s.cons.CRelease? then s.frontBlock else -1 }

  ghost function Written<T>(s: State<T>): int {
    if s.prod.PPublish? then s.tailBlock else if s.prod.PPublishNext? then s.prod.nb else -1
  }

  ghost predicate Core<T>(s: State<T>) {
    && Indexed(s) && RingInv(s.blocks, s.ring, s.used, Pending(s))
    && s.ring[0] == s.frontBlock && s.ring[s.used - 1] == s.tailBlock
  }

  /** What the producer knows between its steps. Once it has seen the tail block full, that block stays
      full for as long as the consumer works in an earlier block. */
  ghost predicate ProducerInv<T>(s: State<T>)
    requires Core(s)
  {
    var tb := s.blocks[s.tailBlock];
    var sawFull := Succ(tb.tail, tb.size) == tb.localFront && (1 < s.used ==> IsFull(tb));
    var spare := s.used < |s.ring|;
    match s.prod
    case PIdle => true
    case PReadFront(_, _) => true
    case PWrite(_) => Succ(tb.tail, tb.size) != tb.localFront
    case PPublish(x) => Succ(tb.tail, tb.size) != tb.localFront && tb.data[tb.tail] == x
    case PCheckNext(_, _) => sawFull
    case PReadNextFront(_) => sawFull && spare
    case PWriteNext(_, nb) =>
      sawFull && spare && s.ring[s.used] == nb && s.blocks[nb].localFront == s.blocks[nb].front
    case PPublishNext(x, nb) =>
      && sawFull && spare && s.ring[s.used] == nb && s.blocks[nb].localFront == s.blocks[nb].front
      && s.blocks[nb].data[s.blocks[nb].tail] == x
    case PAlloc(_) => sawFull
    case PLink(x, nb) =>
      && sawFull && nb !in s.ring && Elems(s.blocks[nb]) == [x] && s.blocks[nb].next == tb.next
    case PAdvance(x, nb) => sawFull && spare && s.ring[s.used] == nb
  }

  /** What the consumer knows between its steps. Once it has seen another tail block, no more elements
      come into the front block; the next block then holds the oldest ones. */
  ghost predicate ConsumerInv<T>(s: State<T>)
    requires Core(s)
  {
    var fb := s.blocks[s.frontBlock];
    match s.cons
    case CIdle => true
    case CReadTail(_) => true
    case CReadTailBlock(_) => s.used == 1 ==> s.sawEmpty
    case CRecheck(_) => 1 < s.used
    case CReadNext(_) => 1 < s.used && IsEmpty(fb)
    case CReadNextTail(_, nb) => 1 < s.used && IsEmpty(fb) && nb == s.ring[1]
    case CAdvance(nb) =>
      1 < s.used && IsEmpty(fb) && nb == s.ring[1] && s.blocks[nb].front != s.blocks[nb].localTail
    case CTake(_) => fb.front != fb.localTail
    case CRelease(v) => fb.front != fb.localTail && fb.data[fb.front] == v
  }

  /** Dequeued elements, then the elements of the live blocks, are the enqueued elements in order. */
  ghost predicate Fifo<T>(s: State<T>)
    requires Core(s)
  {
    s.enq == s.deq + Concat(s.blocks, s.ring, s.used)
  }

  ghost predicate Inv<T>(s: State<T>) {
    Core(s) && ProducerInv(s) && ConsumerInv(s) && Fifo(s) && Cells(s.blocks, Moved(s), Written(s))
  }

  // ---- what each kind of write does to the ring ----------------------------------------------

  lemma ElemsLength<T>(b: Block<T>)
    requires BlockOk(b)
    ensures |Elems(b)| == Dist(b.front, b.tail, b.size)
  {
  }

  lemma ElemsPush<T>(b: Block<T>, b': Block<T>, x: T)
    requires BlockOk(b) && Succ(b.tail, b.size) != b.localFront && b.data[b.tail] == x
    requires b' == b.(tail := Succ(b.tail, b.size))
    ensures BlockOk(b') && Elems(b') == Elems(b) + [x]
  {
  }

  lemma ElemsPop<T>(b: Block<T>, b': Block<T>)
    requires BlockOk(b) && !IsEmpty(b)
    requires b' == b.(front := Succ(b.front, b.size))
    ensures Elems(b) == [b.data[b.front]] + Elems(b')
  {
  }

  lemma {:induction false} ConcatFrame<T>(blocks: seq<Block<T>>, blocks': seq<Block<T>>, ring: seq<nat>, k: nat)
    requires AllOk(blocks) && AllOk(blocks') && Ids(blocks, ring) && Ids(blocks', ring) && k <= |ring|
    requires forall i :: 0 <= i < k ==> Elems(blocks[ring[i]]) == Elems(blocks'[ring[i]])
    ensures Concat(blocks, ring, k) == Concat(blocks', ring, k)
  {
    hide Elems, BlockOk;
    if k != 0 {
      ConcatFrame(blocks, blocks', ring, k - 1);
    }
  }

  lemma InsertedAt(ring: seq<nat>, k: nat, nb: nat, i: nat)
    requires k <= |ring| && i <= |ring|
    ensures |Inserted(ring, k, nb)| == |ring| + 1
    ensures Inserted(ring, k, nb)[i] == if i < k then ring[i] else if i == k then nb else ring[i - 1]
  {
  }

  lemma RotatedAt(ring: seq<nat>, i: nat)
    requires i < |ring|
    ensures |Rotated(ring)| == |ring| && Rotated(ring)[i] == if i + 1 == |ring| then ring[0] else ring[i + 1]
  {
  }

  lemma RingFrame<T>(blocks: seq<Block<T>>, ring: seq<nat>, k: nat, id: nat, b': Block<T>)
    requires RingOk(blocks, ring, k) && id < |blocks| && BlockOk(b') && b'.next == blocks[id].next
    ensures RingOk(blocks[id := b'], ring, k)
  {
    var blocks' := blocks[id := b'];
    assert AllOk(blocks') && Linked(blocks', ring);
  }

  /** A write to the one block at ring position j. */
  lemma FillingFrame<T>(blocks: seq<Block<T>>, blocks': seq<Block<T>>, ring: seq<nat>, k: nat,
                        pending: seq<T>, pending': seq<T>, j: nat)
    requires AllOk(blocks) && AllOk(blocks') && Ids(blocks, ring) && Ids(blocks', ring) && j < |ring|
    requires Filling(blocks, ring, k, pending) && (j != k ==> pending' == pending)
    requires forall i :: 0 <= i < |ring| && i != j ==> blocks'[ring[i]] == blocks[ring[i]]
    requires 0 < j < k ==> !IsEmpty(blocks'[ring[j]])
    requires 0 < j < k - 1 ==> IsFull(blocks'[ring[j]])
    requires k < j ==> IsEmpty(blocks'[ring[j]])
    requires j == k ==> Elems(blocks'[ring[j]]) == pending'
    ensures Filling(blocks', ring, k, pending')
  {
  }

  /** The writes that leave the elements, the indices and the link of a block as they are. */
  ghost predicate SameElems<T>(b: Block<T>, b': Block<T>)
    requires BlockOk(b)
  {
    && BlockOk(b') && b'.size == b.size && b'.next == b.next && b'.front == b.front && b'.tail == b.tail
    && Elems(b') == Elems(b)
  }

  lemma Retouch<T>(blocks: seq<Block<T>>, ring: seq<nat>, k: nat, pending: seq<T>, id: nat, b': Block<T>)
    requires RingInv(blocks, ring, k, pending) && id < |blocks| && SameElems(blocks[id], b')
    ensures var blocks' := blocks[id := b'];
      && RingInv(blocks', ring, k, pending) && Concat(blocks', ring, k) == Concat(blocks, ring, k)
  {
    hide Elems, Dist, Succ;
    RingFrame(blocks, ring, k, id, b');
    hide RingOk, Tables, BlockOk;
    ConcatFrame(blocks, blocks[id := b'], ring, k);
  }

  /** Storing the tail of the tail block: one more live element. */
  lemma PushTail<T>(blocks: seq<Block<T>>, ring: seq<nat>, k: nat, pending: seq<T>, x: T)
    requires RingInv(blocks, ring, k, pending)
    requires var tb := blocks[ring[k - 1]]; Succ(tb.tail, tb.size) != tb.localFront && tb.data[tb.tail] == x
    ensures
      var tb := blocks[ring[k - 1]];
      var blocks' := blocks[ring[k - 1] := tb.(tail := Succ(tb.tail, tb.size))];
      && RingInv(blocks', ring, k, pending)
      && Concat(blocks', ring, k) == Concat(blocks, ring, k) + [x]
  {
    var tb := blocks[ring[k - 1]];
    var tb' := tb.(tail := Succ(tb.tail, tb.size));
    ElemsPush(tb, tb', x);
    var blocks' := blocks[ring[k - 1] := tb'];
    RingFrame(blocks, ring, k, ring[k - 1], tb');
    ElemsLength(tb');
    FillingFrame(blocks, blocks', ring, k, pending, pending, k - 1);
    ConcatFrame(blocks, blocks', ring, k - 1);
  }

  /** Storing the tail of the first spare block, not yet the tail block: nothing becomes live. */
  lemma FillSpare<T>(blocks: seq<Block<T>>, ring: seq<nat>, k: nat, x: T)
    requires RingInv(blocks, ring, k, []) && k < |ring|
    requires var n := blocks[ring[k]]; Succ(n.tail, n.size) != n.localFront && n.data[n.tail] == x
    ensures
      var n := blocks[ring[k]];
      var blocks' := blocks[ring[k] := n.(tail := Succ(n.tail, n.size))];
      && RingInv(blocks', ring, k, [x])
      && Concat(blocks', ring, k) == Concat(blocks, ring, k)
  {
    var n := blocks[ring[k]];
    var n' := n.(tail := Succ(n.tail, n.size));
    ElemsPush(n, n', x);
    var blocks' := blocks[ring[k] := n'];
    RingFrame(blocks, ring, k, ring[k], n');
    ConcatFrame(blocks, blocks', ring, k);
  }

  /** Linking a new, already filled block behind the tail block. */
  lemma LinkNew<T>(blocks: seq<Block<T>>, ring: seq<nat>, k: nat, nb: nat, x: T)
    requires RingInv(blocks, ring, k, [])
    requires nb < |blocks| && nb !in ring && Elems(blocks[nb]) == [x]
    requires blocks[nb].next == blocks[ring[k - 1]].next
    ensures
      var blocks' := blocks[ring[k - 1] := blocks[ring[k - 1]].(next := nb)];
      var ring' := Inserted(ring, k, nb);
      && RingInv(blocks', ring', k, [x])
      && Concat(blocks', ring', k) == Concat(blocks, ring, k)
  {
    var blocks' := blocks[ring[k - 1] := blocks[ring[k - 1]].(next := nb)];
    var ring' := Inserted(ring, k, nb);
    LinkNewRing(blocks, ring, k, nb);
    LinkNewFilling(blocks, blocks', ring, ring', k, nb, x);
    ConcatPrefix(blocks, blocks', ring, ring', k);
  }

  lemma LinkNewFilling<T>(blocks: seq<Block<T>>, blocks': seq<Block<T>>, ring: seq<nat>, ring': seq<nat>,
                          k: nat, nb: nat, x: T)
    requires AllOk(blocks) && AllOk(blocks') && Ids(blocks, ring) && Ids(blocks', ring') && k <= |ring|
    requires Filling(blocks, ring, k, []) && ring' == Inserted(ring, k, nb) && |blocks'| == |blocks|
    requires forall i :: 0 <= i < |blocks| ==> blocks'[i] == blocks[i].(next := blocks'[i].next)
    requires nb < |blocks| && Elems(blocks[nb]) == [x]
    ensures Filling(blocks', ring', k, [x])
  {
    forall i | k < i < |ring'| ensures IsEmpty(blocks'[ring'[i]]) {
      assert ring'[i] == ring[i - 1];
      ElemsLength(blocks[ring[i - 1]]);
    }
  }

  lemma LinkNewRing<T>(blocks: seq<Block<T>>, ring: seq<nat>, k: nat, nb: nat)
    requires RingOk(blocks, ring, k) && nb < |blocks| && nb !in ring
    requires blocks[nb].next == blocks[ring[k - 1]].next
    ensures RingOk(blocks[ring[k - 1] := blocks[ring[k - 1]].(next := nb)], Inserted(ring, k, nb), k)
  {
    hide Dist;
    var blocks' := blocks[ring[k - 1] := blocks[ring[k - 1]].(next := nb)];
    var ring' := Inserted(ring, k, nb);
    InsertedAt(ring, k, nb, 0);
    forall i | 0 <= i <= |ring| ensures ring'[i] == if i < k then ring[i] else if i == k then nb else ring[i - 1] {
      InsertedAt(ring, k, nb, i);
    }
    hide Inserted;
    assert AllOk(blocks') && Ids(blocks', ring') && NoDup(ring');
    forall i, j | 0 <= i < |ring'| && 0 <= j < |ring'| && j == (if i + 1 == |ring'| then 0 else i + 1)
      ensures blocks'[ring'[i]].next == ring'[j]
    {
      LinkNewNext(blocks, ring, k, nb, i, j);
    }
  }

  lemma LinkNewNext<T>(blocks: seq<Block<T>>, ring: seq<nat>, k: nat, nb: nat, i: nat, j: nat)
    requires 0 < k <= |ring| && Ids(blocks, ring) && NoDup(ring) && Linked(blocks, ring)
    requires nb < |blocks| && nb !in ring && blocks[nb].next == blocks[ring[k - 1]].next
    requires i <= |ring| && j <= |ring| && j == if i == |ring| then 0 else i + 1
    ensures var blocks', ring' := blocks[ring[k - 1] := blocks[ring[k - 1]].(next := nb)], Inserted(ring, k, nb);
      |ring'| == |ring| + 1 && ring'[i] < |blocks'| && blocks'[ring'[i]].next == ring'[j]
  {
    hide Inserted;
    InsertedAt(ring, k, nb, i);
    InsertedAt(ring, k, nb, j);
    if i == k {
      assert blocks[ring[k - 1]].next == if k == |ring| then ring[0] else ring[k];
    } else if i != k - 1 {
      var i0 := if i < k then i else i - 1;
      assert blocks[ring[i0]].next == if i0 + 1 == |ring| then ring[0] else ring[i0 + 1];
    }
  }

  lemma {:induction false} ConcatPrefix<T>(blocks: seq<Block<T>>, blocks': seq<Block<T>>,
                                           ring: seq<nat>, ring': seq<nat>, k: nat)
    requires AllOk(blocks) && AllOk(blocks') && Ids(blocks, ring) && Ids(blocks', ring')
    requires k <= |ring| && k <= |ring'|
    requires forall i :: 0 <= i < k ==> ring[i] == ring'[i] && Elems(blocks[ring[i]]) == Elems(blocks'[ring[i]])
    ensures Concat(blocks, ring, k) == Concat(blocks', ring', k)
  {
    hide Elems, BlockOk;
    if k != 0 {
      ConcatPrefix(blocks, blocks', ring, ring', k - 1);
    }
  }

  /** Storing tailBlock: the filled block behind the tail becomes live. */
  lemma MoveTail<T>(blocks: seq<Block<T>>, ring: seq<nat>, k: nat, x: T)
    requires RingInv(blocks, ring, k, [x]) && k < |ring|
    requires 1 < k ==> IsFull(blocks[ring[k - 1]])
    ensures RingInv(blocks, ring, k + 1, [])
    ensures Concat(blocks, ring, k + 1) == Concat(blocks, ring, k) + [x]
  {
    ElemsLength(blocks[ring[k]]);
  }

  /** Storing frontBlock: the emptied front block becomes the last spare one. */
  lemma MoveFront<T>(blocks: seq<Block<T>>, ring: seq<nat>, k: nat, pending: seq<T>)
    requires RingInv(blocks, ring, k, pending) && 1 < k
    requires IsEmpty(blocks[ring[0]]) && (pending == [] || k < |ring|)
    ensures
      var ring' := Rotated(ring);
      && RingInv(blocks, ring', k - 1, pending)
      && Concat(blocks, ring', k - 1) == Concat(blocks, ring, k)
  {
    var ring' := Rotated(ring);
    assert forall i :: 0 <= i < |ring'| ==> ring'[i] == if i + 1 == |ring| then ring[0] else ring[i + 1];
    MoveFrontRing(blocks, ring, ring', k);
    MoveFrontFilling(blocks, ring, ring', k, pending);
    ConcatRotate(blocks, ring, ring', k);
  }

  lemma MoveFrontRing<T>(blocks: seq<Block<T>>, ring: seq<nat>, ring': seq<nat>, k: nat)
    requires RingOk(blocks, ring, k) && 1 < k && ring' == Rotated(ring)
    ensures RingOk(blocks, ring', k - 1)
  {
    assert forall i :: 0 <= i < |ring'| ==> ring'[i] == if i + 1 == |ring| then ring[0] else ring[i + 1];
    assert NoDup(ring') && Linked(blocks, ring');
  }

  lemma MoveFrontFilling<T>(blocks: seq<Block<T>>, ring: seq<nat>, ring': seq<nat>, k: nat, pending: seq<T>)
    requires AllOk(blocks) && Ids(blocks, ring) && Ids(blocks, ring') && 1 < k <= |ring|
    requires Filling(blocks, ring, k, pending) && |ring'| == |ring|
    requires forall i :: 0 <= i < |ring'| ==> ring'[i] == if i + 1 == |ring| then ring[0] else ring[i + 1]
    requires IsEmpty(blocks[ring[0]]) && (pending == [] || k < |ring|)
    ensures Filling(blocks, ring', k - 1, pending)
  {
    forall i | k - 1 < i < |ring'| ensures IsEmpty(blocks[ring'[i]]) {
      if i + 1 < |ring| {
        assert ring'[i] == ring[i + 1];
      }
    }
  }

  lemma NoElems<T>(b: Block<T>)
    requires BlockOk(b) && IsEmpty(b)
    ensures Elems(b) == []
  {
  }

  lemma {:induction false} ConcatRotate<T>(blocks: seq<Block<T>>, ring: seq<nat>, ring': seq<nat>, k: nat)
    requires AllOk(blocks) && Ids(blocks, ring) && Ids(blocks, ring') && |ring'| == |ring| && 0 < k <= |ring|
    requires IsEmpty(blocks[ring[0]]) && forall i :: 0 < i < k ==> ring'[i - 1] == ring[i]
    ensures Concat(blocks, ring', k - 1) == Concat(blocks, ring, k)
  {
    hide Elems, BlockOk, IsEmpty;
    if k == 1 {
      NoElems(blocks[ring[0]]);
      assert Concat(blocks, ring, 0) == [];
    } else {
      ConcatRotate(blocks, ring, ring', k - 1);
    }
  }

  /** Storing the front of the front block: its first element is gone. */
  lemma PopFront<T>(blocks: seq<Block<T>>, ring: seq<nat>, k: nat, pending: seq<T>)
    requires RingInv(blocks, ring, k, pending)
    requires !IsEmpty(blocks[ring[0]]) && blocks[ring[0]].front != blocks[ring[0]].localTail
    ensures
      var fb := blocks[ring[0]];
      var blocks' := blocks[ring[0] := fb.(front := Succ(fb.front, fb.size))];
      && RingInv(blocks', ring, k, pending)
      && Concat(blocks, ring, k) == [fb.data[fb.front]] + Concat(blocks', ring, k)
  {
    var fb := blocks[ring[0]];
    var fb' := fb.(front := Succ(fb.front, fb.size));
    ElemsPop(fb, fb');
    var blocks' := blocks[ring[0] := fb'];
    RingFrame(blocks, ring, k, ring[0], fb');
    ConcatPop(blocks, blocks', ring, k, fb.data[fb.front]);
  }

  lemma {:induction false} ConcatPop<T>(blocks: seq<Block<T>>, blocks': seq<Block<T>>, ring: seq<nat>, k: nat, v: T)
    requires AllOk(blocks) && AllOk(blocks') && Ids(blocks, ring) && Ids(blocks', ring) && 0 < k <= |ring|
    requires Elems(blocks[ring[0]]) == [v] + Elems(blocks'[ring[0]])
    requires forall i :: 0 < i < k ==> Elems(blocks[ring[i]]) == Elems(blocks'[ring[i]])
    ensures Concat(blocks, ring, k) == [v] + Concat(blocks', ring, k)
  {
    hide Elems;
    if k == 1 {
      Assoc([], [v], Elems(blocks'[ring[0]]));
    } else {
      ConcatPop(blocks, blocks', ring, k - 1, v);
      Assoc([v], Concat(blocks', ring, k - 1), Elems(blocks'[ring[k - 1]]));
    }
  }

  lemma Assoc<T>(a: seq<T>, b: seq<T>, c: seq<T>)
    ensures (a + b) + c == a + (b + c) && [] + a == a
  {
  }

  /** Both name the same block, or neither names a block other than `id`. */
  ghost predicate SameBut(m: int, m': int, id: int) {
    m' == m || ((m == -1 || m == id) && (m' == -1 || m' == id))
  }

  lemma CellsUpdate<T>(blocks: seq<Block<T>>, moved: int, written: int, id: nat, b': Block<T>,
                       moved': int, written': int)
    requires AllOk(blocks) && id < |blocks| && Cells(blocks, moved, written) && BlockOk(b')
    requires SameBut(moved, moved', id) && SameBut(written, written', id)
    requires BlockCells(b', id == moved', id == written')
    ensures Cells(blocks[id := b'], moved', written')
  {
    var blocks' := blocks[id := b'];
    forall i | 0 <= i < |blocks'| ensures BlockCells(blocks'[i], i == moved', i == written') {
      assert i != id ==> BlockCells(blocks[i], i == moved, i == written);
    }
  }

  lemma WriteCells<T>(b: Block<T>, x: T, moved: bool)
    requires BlockOk(b) && BlockCells(b, moved, false) && Succ(b.tail, b.size) != b.localFront
    ensures var b' := b.(data := b.data[b.tail := x], alive := b.alive[b.tail := true]);
      BlockOk(b') && BlockCells(b', moved, true) && Elems(b') == Elems(b)
    ensures !b.alive[b.tail]
  {
  }

  lemma PublishCells<T>(b: Block<T>, moved: bool)
    requires BlockOk(b) && BlockCells(b, moved, true) && Succ(b.tail, b.size) != b.localFront
    requires moved ==> b.front != b.localTail
    ensures var b' := b.(tail := Succ(b.tail, b.size)); BlockOk(b') && BlockCells(b', moved, false)
  {
  }

  lemma TakeCells<T>(b: Block<T>, written: bool)
    requires BlockOk(b) && BlockCells(b, false, written) && b.front != b.localTail
    ensures var b' := b.(alive := b.alive[b.front := false]);
      BlockOk(b') && BlockCells(b', true, written) && Elems(b') == Elems(b)
    ensures b.alive[b.front] && !IsEmpty(b)
  {
  }

  lemma ReleaseCells<T>(b: Block<T>, written: bool)
    requires BlockOk(b) && BlockCells(b, true, written) && b.front != b.localTail
    ensures var b' := b.(front := Succ(b.front, b.size)); BlockOk(b') && BlockCells(b', false, written)
  {
  }

  lemma ShadowCells<T>(b: Block<T>, moved: bool, written: bool)
    requires BlockOk(b) && BlockCells(b, moved, written)
    ensures BlockOk(b.(localFront := b.front)) && BlockCells(b.(localFront := b.front), moved, written)
    ensures BlockOk(b.(localTail := b.tail)) && BlockCells(b.(localTail := b.tail), moved, written)
    ensures Elems(b.(localFront := b.front)) == Elems(b.(localTail := b.tail)) == Elems(b)
  {
  }

  // ---- every step keeps the invariant ----------------------------------------------------------

  lemma Basics<T>(s: State<T>, id: nat)
    requires Inv(s) && id < |s.blocks|
    ensures AllOk(s.blocks) && BlockOk(s.blocks[id]) && s.blocks[id].next < |s.blocks|
    ensures BlockCells(s.blocks[id], id == Moved(s), id == Written(s))
  {
  }

  lemma RingTables<T>(blocks: seq<Block<T>>, ring: seq<nat>, k: nat, pending: seq<T>)
    requires RingInv(blocks, ring, k, pending)
    ensures Tables(blocks) && 0 < k <= |ring|
    ensures forall i, j :: 0 <= i < j < |ring| ==> ring[i] != ring[j]
    ensures forall i :: 0 <= i < |ring| ==> ring[i] < |blocks|
  {
  }

  /** The fields the ring and the fifo conditions are about are the same in both states. */
  ghost predicate SameRing<T>(s: State<T>, s': State<T>) {
    && s'.ring == s.ring && s'.used == s.used && s'.frontBlock == s.frontBlock && s'.tailBlock == s.tailBlock
    && s'.enq == s.enq && s'.deq == s.deq && s'.largest == s.largest && Pending(s') == Pending(s)
  }

  lemma KeepTouch<T>(s: State<T>, s': State<T>, id: nat, b': Block<T>)
    requires Inv(s) && SameRing(s, s') && PcOk(s') && id < |s.blocks|
    requires s'.blocks == s.blocks[id := b'] && SameElems(s.blocks[id], b')
    requires SameBut(Moved(s), Moved(s'), id) && SameBut(Written(s), Written(s'), id)
    requires BlockCells(b', id == Moved(s'), id == Written(s'))
    ensures Core(s') && Fifo(s') && Cells(s'.blocks, Moved(s'), Written(s'))
  {
    Retouch(s.blocks, s.ring, s.used, Pending(s), id, b');
    CellsUpdate(s.blocks, Moved(s), Written(s), id, b', Moved(s'), Written(s'));
  }

  /** What the consumer knows survives a producer step: a block the consumer has seen empty for good gets
      no element, and no element it has seen goes away. */
  lemma ConsumerFrame<T>(s: State<T>, s': State<T>)
    requires Core(s) && Core(s') && ConsumerInv(s)
    requires s'.cons == s.cons && s'.frontBlock == s.frontBlock && s.used <= s'.used && s'.sawEmpty == s.sawEmpty
    requires |s.blocks| <= |s'.blocks|
    requires
      var b, b' := s.blocks[s.frontBlock], s'.blocks[s.frontBlock];
      && b'.front == b.front && b'.localTail == b.localTail && (1 < s.used ==> b'.tail == b.tail)
      && (b.front != b.localTail ==> b'.front < |b'.data| && b.front < |b.data| && b'.data[b'.front] == b.data[b.front])
    requires 1 < s.used ==>
      && s'.ring[1] == s.ring[1] < |s.blocks|
      && s'.blocks[s.ring[1]].front == s.blocks[s.ring[1]].front
      && s'.blocks[s.ring[1]].localTail == s.blocks[s.ring[1]].localTail
    ensures ConsumerInv(s')
  {
    hide RingInv, Tables;
  }

  /** What the producer knows survives a consumer step: room does not go away, and a tail block seen full
      can only lose elements once it has become the front block. */
  lemma ProducerFrame<T>(s: State<T>, s': State<T>)
    requires Core(s) && Core(s') && ProducerInv(s)
    requires s'.prod == s.prod && s'.tailBlock == s.tailBlock && s'.used <= s.used && |s'.blocks| == |s.blocks|
    requires
      var b, b' := s.blocks[s.tailBlock], s'.blocks[s.tailBlock];
      && b'.tail == b.tail && b'.size == b.size && b'.localFront == b.localFront && b'.next == b.next
      && b'.data == b.data && (1 < s'.used ==> b'.front == b.front)
    requires s.used < |s.ring| ==> s'.used < |s'.ring| && s'.ring[s'.used] == s.ring[s.used]
    requires s.prod.PWriteNext? || s.prod.PPublishNext? || s.prod.PLink? ==> s'.blocks[s.prod.nb] == s.blocks[s.prod.nb]
    requires s'.ring == s.ring || (s.prod.PLink? ==> s.prod.nb !in s'.ring)
    ensures ProducerInv(s')
  {
    hide RingInv, Tables;
  }

  /** The block the producer is filling or linking is not one of the live ones. */
  lemma ProducerElsewhere<T>(s: State<T>)
    requires Inv(s) && (s.prod.PWriteNext? || s.prod.PPublishNext? || s.prod.PLink?)
    ensures s.prod.nb < |s.blocks| && s.prod.nb != s.frontBlock
        && forall i :: 0 <= i < s.used ==> s.ring[i] != s.prod.nb
  {
  }

  lemma NotInRing<T>(s: State<T>)
    requires Inv(s) && s.prod.PLink?
    ensures s.prod.nb !in s.ring
  {
    hide RingInv, Cells;
  }

  lemma KeepStartEnqueue<T>(s: State<T>, x: T, canAlloc: bool)
    requires Inv(s) && s.prod.PIdle?
    ensures Inv(StartEnqueue(s, x, canAlloc))
  {
    hide Tables, BlockOk, Elems, RingInv, BlockCells, Cells, Dist, Concat;
  }

  lemma KeepReadFront<T>(s: State<T>)
    requires Inv(s) && s.prod.PReadFront?
    ensures Inv(ReadFront(s))
  {
    hide Tables, BlockOk, Elems, RingInv, BlockCells, Cells, Dist, Concat;
    var s', t, b := ReadFront(s), s.tailBlock, s.blocks[s.tailBlock];
    Basics(s, t);
    ShadowCells(b, t == Moved(s), t == Written(s));
    KeepTouch(s, s', t, b.(localFront := b.front));
  }

  lemma FrontApart<T>(b: Block<T>)
    requires BlockOk(b)
    ensures b.front != b.localTail ==> b.front != b.tail
  {
  }

  lemma KeepWriteTail<T>(s: State<T>)
    requires Inv(s) && s.prod.PWrite?
    ensures Inv(WriteTail(s))
  {
    hide Tables, Elems, RingInv, BlockCells, Cells, Dist, Concat;
    var s', t, b := WriteTail(s), s.tailBlock, s.blocks[s.tailBlock];
    Basics(s, t);
    WriteCells(b, s.prod.x, t == Moved(s));
    FrontApart(b);
    KeepTouch(s, s', t, s'.blocks[t]);
  }

  lemma KeepPublishTailRing<T>(s: State<T>)
    requires Inv(s) && s.prod.PPublish?
    ensures var s' := PublishTail(s);
      Core(s') && Fifo(s') && Cells(s'.blocks, Moved(s'), Written(s'))
  {
    hide BlockOk, Elems, BlockCells, Cells, Dist, Concat;
    var s', t, b := PublishTail(s), s.tailBlock, s.blocks[s.tailBlock];
    Basics(s, t);
    PublishCells(b, t == Moved(s));
    PushTail(s.blocks, s.ring, s.used, Pending(s), s.prod.x);
    CoreFacts(s);
    Assoc(s.deq, Concat(s.blocks, s.ring, s.used), [s.prod.x]);
    RingTables(s'.blocks, s.ring, s.used, Pending(s'));
    CellsUpdate(s.blocks, Moved(s), Written(s), t, s'.blocks[t], Moved(s'), Written(s'));
  }

  lemma KeepPublishTail<T>(s: State<T>)
    requires Inv(s) && s.prod.PPublish?
    ensures Inv(PublishTail(s))
  {
    hide Tables, BlockOk, Elems, RingInv, Cells, Dist;
    KeepPublishTailRing(s);
    NextOfTail(s);
  }

  lemma NextOfTail<T>(s: State<T>)
    requires Core(s)
    ensures s.blocks[s.tailBlock].next == if s.used == |s.ring| then s.ring[0] else s.ring[s.used]
    ensures s.used < |s.ring| ==> s.ring[s.used] != s.frontBlock
    ensures forall i, j :: 0 <= i < j < |s.ring| ==> s.ring[i] != s.ring[j]
    ensures forall i :: 0 <= i < |s.ring| ==> s.ring[i] < |s.blocks|
  {
  }

  lemma KeepCheckNext<T>(s: State<T>)
    requires Inv(s) && s.prod.PCheckNext?
    ensures Inv(CheckNext(s))
  {
    hide Tables, BlockOk, Elems, RingInv, BlockCells, Cells, Dist, Concat;
    NextOfTail(s);
  }

  /** The block ahead of the tail block is empty when the producer looks at it. */
  lemma SpareIsEmpty<T>(s: State<T>)
    requires Inv(s) && s.used < |s.ring| && !s.prod.PAdvance?
    ensures IsEmpty(s.blocks[s.ring[s.used]])
  {
    ElemsLength(s.blocks[s.ring[s.used]]);
  }

  lemma KeepReadNextFront<T>(s: State<T>)
    requires Inv(s) && s.prod.PReadNextFront?
    ensures Inv(ReadNextFront(s))
  {
    hide Tables, BlockOk, Elems, RingInv, BlockCells, Cells, Dist, Concat;
    var s', n := ReadNextFront(s), s.ring[s.used];
    NextOfTail(s);
    Basics(s, n);
    ShadowCells(s.blocks[n], n == Moved(s), n == Written(s));
    KeepTouch(s, s', n, s'.blocks[n]);
  }

  lemma KeepWriteNext<T>(s: State<T>)
    requires Inv(s) && s.prod.PWriteNext?
    ensures Inv(WriteNext(s))
  {
    hide Tables, BlockOk, Elems, RingInv, BlockCells, Cells, Dist, Concat;
    var s', n := WriteNext(s), s.prod.nb;
    NextOfTail(s);
    SpareIsEmpty(s);
    Basics(s, n);
    WriteCells(s.blocks[n], s.prod.x, n == Moved(s));
    KeepTouch(s, s', n, s'.blocks[n]);
  }

  lemma KeepPublishNextRing<T>(s: State<T>)
    requires Inv(s) && s.prod.PPublishNext?
    ensures var s' := PublishNext(s);
      Core(s') && Fifo(s') && Cells(s'.blocks, Moved(s'), Written(s'))
  {
    hide BlockOk, Elems, BlockCells, Cells, Dist, Concat;
    var s', n := PublishNext(s), s.prod.nb;
    NextOfTail(s);
    SpareIsEmpty(s);
    Basics(s, n);
    PublishCells(s.blocks[n], n == Moved(s));
    FillSpare(s.blocks, s.ring, s.used, s.prod.x);
    RingTables(s'.blocks, s.ring, s.used, Pending(s'));
    CellsUpdate(s.blocks, Moved(s), Written(s), n, s'.blocks[n], Moved(s'), Written(s'));
  }

  lemma KeepPublishNext<T>(s: State<T>)
    requires Inv(s) && s.prod.PPublishNext?
    ensures Inv(PublishNext(s))
  {
    hide Tables, BlockOk, Elems, RingInv, Cells, Dist;
    KeepPublishNextRing(s);
    NextOfTail(s);
  }

  lemma NewBlockOk<T>(size: nat, next: nat, x: T, junk: T)
    requires 2 <= size
    ensures var b := NewBlock(size, next, x, junk); BlockOk(b) && Elems(b) == [x] && BlockCells(b, false, false)
  {
  }

  lemma Extend<T>(blocks: seq<Block<T>>, b: Block<T>, ring: seq<nat>, k: nat, pending: seq<T>, moved: int, written: int)
    requires RingInv(blocks, ring, k, pending) && BlockOk(b) && b.next < |blocks|
    requires Cells(blocks, moved, written) && BlockCells(b, false, false) && moved < |blocks| && written < |blocks|
    ensures var blocks' := blocks + [b];
      && RingInv(blocks', ring, k, pending) && Concat(blocks', ring, k) == Concat(blocks, ring, k)
      && Cells(blocks', moved, written) && |blocks| !in ring
  {
    var blocks' := blocks + [b];
    assert AllOk(blocks') && Linked(blocks', ring);
    ConcatFrame(blocks, blocks', ring, k);
  }

  lemma KeepAllocRing<T>(s: State<T>, mallocOk: bool, junk: T)
    requires Inv(s) && s.prod.PAlloc?
    ensures var s' := Alloc(s, mallocOk, junk);
      Core(s') && Fifo(s') && Cells(s'.blocks, Moved(s'), Written(s'))
  {
    hide BlockOk, Elems, BlockCells, Cells, Dist, Concat, ProducerInv, ConsumerInv;
    if mallocOk {
      var s', size := Alloc(s, mallocOk, junk), NextSize(s.largest);
      Basics(s, s.tailBlock);
      NewBlockOk(size, s.blocks[s.tailBlock].next, s.prod.x, junk);
      Extend(s.blocks, NewBlock(size, s.blocks[s.tailBlock].next, s.prod.x, junk), s.ring, s.used, Pending(s),
             Moved(s), Written(s));
      RingTables(s'.blocks, s.ring, s.used, Pending(s'));
    }
  }

  lemma KeepAlloc<T>(s: State<T>, mallocOk: bool, junk: T)
    requires Inv(s) && s.prod.PAlloc?
    ensures Inv(Alloc(s, mallocOk, junk))
  {
    hide Tables, Elems, RingInv, BlockCells, Cells, Dist, Concat, ConsumerInv;
    var s' := Alloc(s, mallocOk, junk);
    KeepAllocRing(s, mallocOk, junk);
    NextOfTail(s);
    Basics(s, s.frontBlock);
    var size := NextSize(s.largest);
    NewBlockOk(size, s.blocks[s.tailBlock].next, s.prod.x, junk);
    ConsumerFrame(s, s');
  }

  lemma LinkFacts<T>(s: State<T>)
    requires Inv(s) && s.prod.PLink?
    ensures
      var t, b' := s.tailBlock, s.blocks[s.tailBlock].(next := s.prod.nb);
      && Indexed(s) && BlockOk(b') && BlockCells(b', t == Moved(s), t == Written(s))
      && Elems(s.blocks[s.prod.nb]) == [s.prod.x] && s.prod.nb !in s.ring
      && s.blocks[s.prod.nb].next == s.blocks[t].next
  {
    Basics(s, s.tailBlock);
    hide RingInv, Cells, Concat, ConsumerInv;
  }

  lemma KeepLinkBlockRing<T>(s: State<T>)
    requires Inv(s) && s.prod.PLink?
    ensures var s' := LinkBlock(s);
      Core(s') && Fifo(s') && Cells(s'.blocks, Moved(s'), Written(s'))
  {
    hide Inv, Tables, BlockOk, Elems, RingInv, BlockCells, Cells, Dist, Concat, ProducerInv, ConsumerInv, Inserted;
    CoreFacts(s);
    LinkFacts(s);
    var s', t, b' := LinkBlock(s), s.tailBlock, s.blocks[s.tailBlock].(next := s.prod.nb);
    LinkNew(s.blocks, s.ring, s.used, s.prod.nb, s.prod.x);
    RingTables(s'.blocks, s'.ring, s.used, Pending(s'));
    InsertedAt(s.ring, s.used, s.prod.nb, 0);
    InsertedAt(s.ring, s.used, s.prod.nb, s.used - 1);
    CellsUpdate(s.blocks, Moved(s), Written(s), t, b', Moved(s'), Written(s'));
  }

  lemma KeepLinkBlock<T>(s: State<T>)
    requires Inv(s) && s.prod.PLink?
    ensures Inv(LinkBlock(s))
  {
    hide Tables, Elems, RingInv, BlockCells, Cells, Dist, Concat, ConsumerInv, Inserted, Fifo, BlockOk;
    KeepLinkBlockRing(s);
    Basics(s, s.frontBlock);
    RingTables(s.blocks, s.ring, s.used, Pending(s));
    InsertedAt(s.ring, s.used, s.prod.nb, s.used);
    InsertedAt(s.ring, s.used, s.prod.nb, 1);
    assert ConsumerInv(LinkBlock(s)) by { ConsumerFrame(s, LinkBlock(s)); }
  }

  lemma AdvanceTailFacts<T>(s: State<T>)
    requires Inv(s) && s.prod.PAdvance?
    ensures Indexed(s) && s.used < |s.ring| && s.ring[s.used] == s.prod.nb
        && (1 < s.used ==> IsFull(s.blocks[s.ring[s.used - 1]]))
    ensures s.enq == s.deq + Concat(s.blocks, s.ring, s.used)
  {
    hide Tables, BlockOk, Elems, RingInv, BlockCells, Cells, Dist, Concat, ConsumerInv;
  }

  lemma KeepAdvanceTailRing<T>(s: State<T>)
    requires Inv(s) && s.prod.PAdvance?
    ensures var s' := AdvanceTail(s); Core(s') && Fifo(s') && Cells(s'.blocks, Moved(s'), Written(s'))
  {
    hide Inv, Tables, BlockOk, Elems, RingInv, BlockCells, Cells, Dist, Concat, ProducerInv, ConsumerInv, IsFull;
    CoreFacts(s);
    AdvanceTailFacts(s);
    NextOfTail(s);
    MoveTail(s.blocks, s.ring, s.used, s.prod.x);
    Assoc(s.deq, Concat(s.blocks, s.ring, s.used), [s.prod.x]);
  }

  lemma KeepAdvanceTail<T>(s: State<T>)
    requires Inv(s) && s.prod.PAdvance?
    ensures Inv(AdvanceTail(s))
  {
    hide Tables, Elems, RingInv, BlockCells, Cells, Dist, Concat, ConsumerInv;
    KeepAdvanceTailRing(s);
    NextOfTail(s);
    Basics(s, s.frontBlock);
    ConsumerFrame(s, AdvanceTail(s));
  }

  lemma KeepStartDequeue<T>(s: State<T>, peek: bool)
    requires Inv(s) && s.cons.CIdle?
    ensures Inv(StartDequeue(s, peek))
  {
    hide Tables, BlockOk, Elems, RingInv, BlockCells, Cells, Dist, Concat;
  }

  /** With one live block that is empty, every enqueued element has been dequeued. */
  lemma OneEmptyBlock<T>(s: State<T>)
    requires Core(s) && Fifo(s) && s.used == 1 && IsEmpty(s.blocks[s.frontBlock])
    ensures s.enq == s.deq
  {
    ElemsLength(s.blocks[s.ring[0]]);
    assert Concat(s.blocks, s.ring, 0) == [];
  }

  lemma KeepReadTail<T>(s: State<T>)
    requires Inv(s) && s.cons.CReadTail?
    ensures Inv(ReadTail(s))
  {
    hide Fifo, Tables, Elems, RingInv, BlockCells, Cells, Dist, Concat, ProducerInv;
    var s' := ReadTail(s);
    assert s.used == 1 && s.blocks[s.frontBlock].front == s.blocks[s.frontBlock].tail ==> |s.enq| == |s.deq| by {
      if s.used == 1 && IsEmpty(s.blocks[s.frontBlock]) { OneEmptyBlock(s); }
    }
    Basics(s, s.frontBlock);
    RingTables(s.blocks, s.ring, s.used, Pending(s));
    ShadowCells(s.blocks[s.frontBlock], s.frontBlock == Moved(s), s.frontBlock == Written(s));
    KeepTouch(s, s', s.frontBlock, s'.blocks[s.frontBlock]);
    if s.prod.PWriteNext? || s.prod.PPublishNext? || s.prod.PLink? { ProducerElsewhere(s); }
    assert ProducerInv(s') by { ProducerFrame(s, s'); }
  }

  lemma KeepReadTailBlock<T>(s: State<T>)
    requires Inv(s) && s.cons.CReadTailBlock?
    ensures Inv(ReadTailBlock(s))
  {
    hide Tables, BlockOk, Elems, RingInv, BlockCells, Cells, Dist, Concat, ProducerInv;
    var s' := ReadTailBlock(s);
    assert s.used == 1 ==> s.frontBlock == s.tailBlock;
    assert ProducerInv(s') by { ProducerFrame(s, s'); }
  }

  lemma KeepRecheck<T>(s: State<T>)
    requires Inv(s) && s.cons.CRecheck?
    ensures Inv(Recheck(s))
  {
    hide Tables, Elems, RingInv, BlockCells, Cells, Dist, Concat, ProducerInv, Fifo;
    var s' := Recheck(s);
    Basics(s, s.frontBlock);
    RingTables(s.blocks, s.ring, s.used, Pending(s));
    ShadowCells(s.blocks[s.frontBlock], s.frontBlock == Moved(s), s.frontBlock == Written(s));
    KeepTouch(s, s', s.frontBlock, s'.blocks[s.frontBlock]);
    if s.prod.PWriteNext? || s.prod.PPublishNext? || s.prod.PLink? { ProducerElsewhere(s); }
    assert ProducerInv(s') by { ProducerFrame(s, s'); }
  }

  lemma NextOfFront<T>(s: State<T>)
    requires Core(s) && 1 < s.used
    ensures s.blocks[s.frontBlock].next == s.ring[1] && !IsEmpty(s.blocks[s.ring[1]])
  {
  }

  lemma KeepReadNext<T>(s: State<T>)
    requires Inv(s) && s.cons.CReadNext?
    ensures Inv(ReadNext(s))
  {
    hide Tables, BlockOk, Elems, RingInv, BlockCells, Cells, Dist, Concat;
    NextOfFront(s);
    RingTables(s.blocks, s.ring, s.used, Pending(s));
  }

  /** A finished `peek` changes nothing but the answer. */
  lemma KeepPeek<T>(s: State<T>, v: T)
    requires Inv(s)
    ensures Inv(s.(cons := CIdle, answer := Peeked(v))) || s.cons.CRelease?
  {
    hide Tables, BlockOk, Elems, RingInv, BlockCells, Cells, Dist, Concat, ProducerInv;
    var s' := s.(cons := CIdle, answer := Peeked(v));
    assert ProducerInv(s') by { ProducerFrame(s, s'); }
  }

  lemma KeepReadNextTail<T>(s: State<T>)
    requires Inv(s) && s.cons.CReadNextTail?
    ensures Inv(ReadNextTail(s))
  {
    if s.cons.peek {
      KeepPeek(s, s.blocks[s.cons.nb].data[s.blocks[s.cons.nb].front]);
    } else {
      KeepRefreshNext(s);
    }
  }

  lemma KeepRefreshNext<T>(s: State<T>)
    requires Inv(s) && s.cons.CReadNextTail? && !s.cons.peek
    ensures Inv(ReadNextTail(s))
  {
    hide Tables, Elems, RingInv, BlockCells, Cells, Dist, Concat, ProducerInv, Fifo;
    var s', n := ReadNextTail(s), s.cons.nb;
    NextOfFront(s);
    Basics(s, n);
    RingTables(s.blocks, s.ring, s.used, Pending(s));
    ShadowCells(s.blocks[n], n == Moved(s), n == Written(s));
    KeepTouch(s, s', n, s'.blocks[n]);
    if s.prod.PWriteNext? || s.prod.PPublishNext? || s.prod.PLink? { ProducerElsewhere(s); }
    ProducerFrame(s, s');
  }

  lemma KeepTake<T>(s: State<T>)
    requires Inv(s) && s.cons.CTake?
    ensures Inv(Take(s))
  {
    if s.cons.peek {
      KeepPeek(s, s.blocks[s.frontBlock].data[s.blocks[s.frontBlock].front]);
    } else {
      KeepTakeOut(s);
    }
  }

  lemma KeepTakeOut<T>(s: State<T>)
    requires Inv(s) && s.cons.CTake? && !s.cons.peek
    ensures Inv(Take(s))
  {
    hide Tables, Elems, RingInv, BlockCells, Cells, Dist, Concat, ProducerInv, Fifo;
    var s', f := Take(s), s.frontBlock;
    Basics(s, f);
    RingTables(s.blocks, s.ring, s.used, Pending(s));
    TakeCells(s.blocks[f], f == Written(s));
    KeepTouch(s, s', f, s'.blocks[f]);
    if s.prod.PWriteNext? || s.prod.PPublishNext? || s.prod.PLink? { ProducerElsewhere(s); }
    ProducerFrame(s, s');
  }

  lemma CoreFacts<T>(s: State<T>)
    requires Inv(s)
    ensures Core(s) && Fifo(s) && Cells(s.blocks, Moved(s), Written(s))
    ensures 0 < s.used <= |s.ring| && Tables(s.blocks) && PcOk(s) && RingInv(s.blocks, s.ring, s.used, Pending(s))
    ensures s.ring[0] == s.frontBlock < |s.blocks| && s.ring[s.used - 1] == s.tailBlock < |s.blocks| && 2 <= s.largest
    ensures Pending(s) == [] || s.used < |s.ring|
  {
  }

  lemma AdvanceRing<T>(blocks: seq<Block<T>>, ring: seq<nat>, k: nat, pending: seq<T>)
    requires RingInv(blocks, ring, k, pending) && 1 < k && IsEmpty(blocks[ring[0]]) && (pending == [] || k < |ring|)
    ensures RingInv(blocks, Rotated(ring), k - 1, pending)
    ensures Concat(blocks, Rotated(ring), k - 1) == Concat(blocks, ring, k)
    ensures Rotated(ring)[0] == ring[1] && Rotated(ring)[k - 2] == ring[k - 1] && |Rotated(ring)| == |ring|
  {
    MoveFront(blocks, ring, k, pending);
  }

  lemma AdvanceFacts<T>(s: State<T>)
    requires Inv(s) && s.cons.CAdvance?
    ensures 1 < s.used && IsEmpty(s.blocks[s.frontBlock]) && s.cons.nb == s.ring[1] < |s.blocks|
        && |s.ring| == |Rotated(s.ring)|
    ensures Indexed(s)
  {
    hide Tables, BlockOk, Elems, RingInv, BlockCells, Cells, Dist, Concat, ProducerInv;
    RingTables(s.blocks, s.ring, s.used, Pending(s));
  }

  lemma AdvanceFrontCore<T>(s: State<T>)
    requires Inv(s) && s.cons.CAdvance?
    ensures var s' := AdvanceFront(s);
      Core(s') && Concat(s.blocks, s'.ring, s'.used) == Concat(s.blocks, s.ring, s.used)
  {
    hide Inv, ConsumerInv, Fifo, Tables, BlockOk, Elems, BlockCells, Cells, Dist, Concat, Rotated, IsEmpty, RingInv,
        ProducerInv;
    CoreFacts(s);
    AdvanceFacts(s);
    AdvanceRing(s.blocks, s.ring, s.used, Pending(s));
  }

  lemma AdvanceFrontFifo<T>(s: State<T>)
    requires Inv(s) && s.cons.CAdvance?
    ensures var s' := AdvanceFront(s); Core(s') && Fifo(s') && Cells(s'.blocks, Moved(s'), Written(s'))
  {
    hide Inv, Core, Tables, BlockOk, Elems, BlockCells, Cells, Dist, Concat, Rotated, IsEmpty, RingInv;
    CoreFacts(s);
    AdvanceFrontCore(s);
  }

  lemma RotatedMembers(ring: seq<nat>, x: nat)
    requires ring != [] && x !in ring
    ensures x !in Rotated(ring)
  {
  }

  lemma KeepAdvanceFront<T>(s: State<T>)
    requires Inv(s) && s.cons.CAdvance?
    ensures Inv(AdvanceFront(s))
  {
    hide Tables, BlockOk, Elems, RingInv, BlockCells, Cells, Dist, Concat, ProducerInv, Rotated, Fifo;
    var s' := AdvanceFront(s);
    AdvanceFrontFifo(s);
    CoreFacts(s);
    if s.prod.PLink? {
      NotInRing(s);
      RotatedMembers(s.ring, s.prod.nb);
    }
    RotatedAt(s.ring, s.used - 1);
    ProducerFrame(s, s');
  }

  lemma ReleaseFacts<T>(s: State<T>)
    requires Inv(s) && s.cons.CRelease?
    ensures
      var b := s.blocks[s.frontBlock];
      && Indexed(s) && BlockOk(b) && b.front != b.localTail && b.data[b.front] == s.cons.v && !IsEmpty(b)
      && BlockCells(b, true, s.frontBlock == Written(s))
  {
    Basics(s, s.frontBlock);
    hide RingInv, Cells, Concat, ProducerInv;
  }

  lemma KeepReleaseRing<T>(s: State<T>)
    requires Inv(s) && s.cons.CRelease?
    ensures var s' := Release(s); Core(s') && Fifo(s') && Cells(s'.blocks, Moved(s'), Written(s'))
  {
    hide Inv, Tables, BlockOk, Elems, RingInv, BlockCells, Cells, Dist, Concat, ProducerInv, ConsumerInv, IsEmpty;
    CoreFacts(s);
    ReleaseFacts(s);
    var s', f, b := Release(s), s.frontBlock, s.blocks[s.frontBlock];
    ReleaseCells(b, f == Written(s));
    PopFront(s.blocks, s.ring, s.used, Pending(s));
    RingTables(s'.blocks, s.ring, s.used, Pending(s'));
    Assoc(s.deq, [s.cons.v], Concat(s'.blocks, s.ring, s.used));
    CellsUpdate(s.blocks, Moved(s), Written(s), f, s'.blocks[f], Moved(s'), Written(s'));
  }

  lemma KeepRelease<T>(s: State<T>)
    requires Inv(s) && s.cons.CRelease?
    ensures Inv(Release(s))
  {
    hide Tables, BlockOk, Elems, RingInv, BlockCells, Cells, Dist, Concat, ProducerInv, Fifo;
    var s' := Release(s);
    KeepReleaseRing(s);
    RingTables(s.blocks, s.ring, s.used, Pending(s));
    if s.prod.PWriteNext? || s.prod.PPublishNext? || s.prod.PLink? { ProducerElsewhere(s); }
    assert ProducerInv(s') by { ProducerFrame(s, s'); }
  }
}
