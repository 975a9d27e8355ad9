/** One producer's sub-queue of the multi-producer queue (concurrentqueue.h, struct ImplicitProducer): one
    enqueuer and any number of dequeuers, over the counters of DequeueCounters, a circular index of blocks
    that grows by doubling, and blocks that go back to a shared pool once all their elements are moved out.

    A step is one access to a shared variable; a run is any interleaving over sequentially consistent memory.
    Masks `& (capacity - 1)` are remainders by the capacity, which is a power of two. */
module ImplicitProducer {
  import C = DequeueCounters

  const BLOCK_SIZE: nat := 32
  const INVALID: int := 1
  const NULL: int := -1

  datatype Cell<T> = Raw | Full(v: T)

  /** A block index. `base`, `lo` and `hi` are bookkeeping: block number k sits at position (k - base) modulo
      the capacity, and the blocks lo <= k < hi are those whose place has not been reused. */
  datatype Header = Header(index: seq<nat>, tail: nat, base: nat, lo: nat, hi: nat)

  /** A dequeuer that owns index i (C.Have) is at one of these places. */
  datatype Job<T> =
    | JHeader                               // load blockIndex
    | JTail(h: nat)                         // load the tail of that header
    | JKey(h: nat, at: nat, m: nat)         // load the key at the tail; m is the block number there
    | JValue(e: nat)                        // load the entry's value
    | JMove(e: nat, b: nat)                 // move the element out of block b and destroy it
    | JCount(e: nat, b: nat, v: T)          // fetch_add elementsCompletelyDequeued
    | JClear(e: nat, b: nat, v: T)          // the block is empty: store null in the entry
    | JFree(b: nat, v: T)                   // put the block on the free list
    | JDone(v: T)

  datatype Enqueuer<T> =
    | PIdle
    | PHead(x: T)                           // load headIndex
    | PSlot(x: T)                           // load the value of the next entry
    | PGrow(x: T)                           // no room: allocate an index of twice the size and publish it
    | PKey(x: T, e: nat, at: nat)           // store the entry's key
    | PTail(x: T, e: nat, at: nat)          // store the index's tail
    | PReq(x: T, e: nat)                    // requisition a block
    | PRewind(e: nat)                       // none: store the old tail back
    | PNull(e: nat)                         // and null in the entry
    | PReset(x: T, e: nat, b: nat)          // store 0 in elementsCompletelyDequeued
    | PVal(x: T, e: nat, b: nat)            // store the block in the entry
    | PWrite(x: T)                          // construct the element in the tail block
    | PPub(x: T)                            // store tailIndex

  /** The life of a block between two stays in the pool: holding elements; empty, its last dequeuer about to
      clear the entry, then about to free it; freed. */
  datatype Stage = Active | Drained(t: nat) | Cleared(t: nat) | Released

  /** Bookkeeping, one record per block number: which block, and which of its elements are moved out and
      counted as such. */
  datatype Use = Use(block: nat, taken: set<nat>, fin: set<nat>, stage: Stage)

  datatype Owner = Pool | Mine | UsedBy(j: nat)

  /** `enq`, `slots`, `uses`, `owner` and `claimer` are bookkeeping: the elements constructed so far, the entry chosen
      for each block number, the blocks used, where each block is (only a block in the pool is handed out), and
      the dequeuer that claimed each index. */
  datatype State<T> = State(c: C.State, jobs: seq<Job<T>>, prod: Enqueuer<T>,
                            keys: seq<int>, vals: seq<int>, headers: seq<Header>,
                            done: seq<nat>, mem: seq<seq<Cell<T>>>,
                            enq: seq<T>, slots: seq<nat>, uses: seq<Use>, owner: seq<Owner>, claimer: seq<nat>)

  /** What the environment decides in an enqueuer's step: the element, whether an allocation succeeds, the
      block handed out (one past the last for a new one), and the junk in uninitialised memory. */
  datatype Choice<T> =
    | Enqueue(x: T, allocOk: bool, block: nat, junk: int)
    | Dequeue(t: nat)

  function Cap(h: Header): nat { |h.index| }

  function Pos(h: Header, k: int): (r: nat)
    requires 0 < Cap(h)
    ensures r < Cap(h)
  {
    (k - h.base) % Cap(h)
  }

  function At(h: Header, k: int): nat
    requires 0 < Cap(h)
  {
    h.index[Pos(h, k)]
  }

  predicate Sized<T>(s: State<T>) {
    && |s.jobs| == |s.c.pcs| && |s.keys| == |s.vals| && 0 < |s.headers|
    && |s.done| == |s.mem| == |s.owner| && |s.uses| <= |s.slots| <= |s.uses| + 1
    && (forall h :: 0 <= h < |s.headers| ==> 0 < Cap(s.headers[h]) && s.headers[h].tail < Cap(s.headers[h]))
  }

  function Cur<T>(s: State<T>): Header
    requires Sized(s)
  {
    s.headers[|s.headers| - 1]
  }

  // ---- steps of the enqueuer ------------------------------------------------------------------

  function Begin<T>(s: State<T>, x: T): State<T> {
    s.(prod := if s.c.tail % BLOCK_SIZE == 0 then PHead(x) else PWrite(x))
  }

  /** The sub-queue counts as full when the head is a block or more behind what it can be. */
  function CheckHead<T>(s: State<T>): State<T>
    requires s.prod.PHead?
  {
    s.(prod := if s.c.head < s.c.tail + BLOCK_SIZE then PSlot(s.prod.x) else PIdle)
  }

  predicate SlotInRange<T>(s: State<T>) {
    Sized(s) && Cur(s).index[(Cur(s).tail + 1) % Cap(Cur(s))] < |s.keys|
  }

  function FindSlot<T>(s: State<T>): State<T>
    requires s.prod.PSlot? && SlotInRange(s)
  {
    var at := (Cur(s).tail + 1) % Cap(Cur(s));
    var e := Cur(s).index[at];
    s.(prod := if s.keys[e] == INVALID || s.vals[e] == NULL then PKey(s.prod.x, e, at) else PGrow(s.prod.x))
  }

  /** The old index from the entry after its tail on, all the way round, then as many fresh entries. */
  function Doubled(h: Header, first: nat): seq<nat>
    requires 0 < Cap(h)
  {
    seq(2 * Cap(h), i requires 0 <= i < 2 * Cap(h) =>
      if i < Cap(h) then h.index[(h.tail + 1 + i) % Cap(h)] else first + (i - Cap(h)))
  }

  function Grow<T>(s: State<T>, ok: bool, junk: int): State<T>
    requires s.prod.PGrow? && Sized(s)
  {
    var h := Cur(s);
    var n := Cap(h);
    if !ok then s.(prod := PIdle)
    else
      var h' := Header(Doubled(h, |s.keys|), n - 1, h.lo, h.lo, h.hi);
      var at := n % (2 * n);
      s.(keys := s.keys + seq(n, i => INVALID), vals := s.vals + seq(n, i => junk), headers := s.headers + [h'],
         prod := PKey(s.prod.x, h'.index[at], at))
  }

  function StoreKey<T>(s: State<T>): State<T>
    requires s.prod.PKey? && Sized(s) && s.prod.e < |s.keys|
  {
    var n, e, h := |s.uses|, s.prod.e, Cur(s);
    var h' := if |s.slots| == n + 1 then h
              else h.(hi := n + 1, lo := if n + 1 <= h.lo + Cap(h) then h.lo else h.lo + 1);
    s.(keys := s.keys[e := s.c.tail], slots := if |s.slots| == n + 1 then s.slots else s.slots + [e],
       headers := s.headers[|s.headers| - 1 := h'], prod := PTail(s.prod.x, e, s.prod.at))
  }

  function StoreTail<T>(s: State<T>): State<T>
    requires s.prod.PTail? && Sized(s)
  {
    s.(headers := s.headers[|s.headers| - 1 := Cur(s).(tail := s.prod.at)], prod := PReq(s.prod.x, s.prod.e))
  }

  function Requisition<T>(s: State<T>, ok: bool, b: nat): State<T>
    requires s.prod.PReq? && Sized(s)
  {
    var x, e := s.prod.x, s.prod.e;
    if b < |s.owner| && s.owner[b].Pool? then
      s.(owner := s.owner[b := Mine], prod := PReset(x, e, b))
    else if ok then
      s.(done := s.done + [0], mem := s.mem + [seq(BLOCK_SIZE, i => Raw)], owner := s.owner + [Mine],
         prod := PReset(x, e, |s.owner|))
    else s.(prod := PRewind(e))
  }

  function Rewind<T>(s: State<T>): State<T>
    requires s.prod.PRewind? && Sized(s)
  {
    var h := Cur(s);
    s.(headers := s.headers[|s.headers| - 1 := h.(tail := (h.tail - 1) % Cap(h))], prod := PNull(s.prod.e))
  }

  function NullEntry<T>(s: State<T>): State<T>
    requires s.prod.PNull? && s.prod.e < |s.vals|
  {
    s.(vals := s.vals[s.prod.e := NULL], prod := PIdle)
  }

  function ResetBlock<T>(s: State<T>): State<T>
    requires s.prod.PReset? && s.prod.b < |s.done|
  {
    s.(done := s.done[s.prod.b := 0], prod := PVal(s.prod.x, s.prod.e, s.prod.b))
  }

  function StoreValue<T>(s: State<T>): State<T>
    requires s.prod.PVal? && s.prod.e < |s.vals| && s.prod.b < |s.owner|
  {
    var b := s.prod.b;
    s.(vals := s.vals[s.prod.e := b], uses := s.uses + [Use(b, {}, {}, Active)],
       owner := s.owner[b := UsedBy(|s.uses|)], prod := PWrite(s.prod.x))
  }

  predicate TailInRange<T>(s: State<T>) {
    && s.uses != [] && s.uses[|s.uses| - 1].block < |s.mem|
    && s.c.tail % BLOCK_SIZE < |s.mem[s.uses[|s.uses| - 1].block]|
  }

  function WriteElement<T>(s: State<T>): State<T>
    requires s.prod.PWrite? && TailInRange(s)
  {
    var b := s.uses[|s.uses| - 1].block;
    s.(mem := s.mem[b := s.mem[b][s.c.tail % BLOCK_SIZE := Full(s.prod.x)]], enq := s.enq + [s.prod.x],
       prod := PPub(s.prod.x))
  }

  function Publish<T>(s: State<T>): State<T>
    requires s.prod.PPub?
  {
    s.(c := C.Publish(s.c), prod := PIdle)
  }

  predicate ProdInRange<T>(s: State<T>) {
    && Sized(s)
    && match s.prod
       case PSlot(_) => SlotInRange(s)
       case PKey(_, e, _) => e < |s.keys|
       case PNull(e) => e < |s.vals|
       case PReset(_, _, b) => b < |s.done|
       case PVal(_, e, b) => e < |s.vals| && b < |s.owner|
       case PWrite(_) => TailInRange(s)
       case _ => true
  }

  function ProdStep<T>(s: State<T>, x: T, allocOk: bool, block: nat, junk: int): State<T>
    requires ProdInRange(s)
  {
    match s.prod
    case PIdle => Begin(s, x)
    case PHead(_) => CheckHead(s)
    case PSlot(_) => FindSlot(s)
    case PGrow(_) => Grow(s, allocOk, junk)
    case PKey(_, _, _) => StoreKey(s)
    case PTail(_, _, _) => StoreTail(s)
    case PReq(_, _) => Requisition(s, allocOk, block)
    case PRewind(_) => Rewind(s)
    case PNull(_) => NullEntry(s)
    case PReset(_, _, _) => ResetBlock(s)
    case PVal(_, _, _) => StoreValue(s)
    case PWrite(_) => WriteElement(s)
    case PPub(_) => Publish(s)
  }

  // ---- steps of a dequeuer --------------------------------------------------------------------

  /** The number of the block that sits at the tail of a header. */
  function TailBlock<T>(s: State<T>, h: nat): int
    requires h < |s.headers|
  {
    if h + 1 < |s.headers| then s.headers[h].hi - 1
    else if s.prod.PReq? || s.prod.PRewind? || s.prod.PReset? || s.prod.PVal? then |s.uses|
    else |s.uses| - 1
  }

  function Job0<T>(p: C.Pc, was: Job<T>): Job<T> { if p.Have? then JHeader else was }

  /** A step on the counters; claiming an index starts the lookup of its block. */
  function Count<T>(s: State<T>, t: nat): State<T>
    requires t < |s.jobs| == |s.c.pcs| && !s.c.pcs[t].Have?
  {
    var c := C.Step(s.c, t);
    s.(c := c, jobs := s.jobs[t := Job0(c.pcs[t], s.jobs[t])],
       claimer := if c.pcs[t].Have? then s.claimer + [t] else s.claimer)
  }

  predicate JobInRange<T>(s: State<T>, t: nat) {
    && Sized(s) && t < |s.jobs| && s.c.pcs[t].Have?
    && var i := s.c.pcs[t].i;
       match s.jobs[t]
       case JTail(h) => h < |s.headers| && 0 <= TailBlock(s, h)
       case JKey(h, at, _) => h < |s.headers| && at < Cap(s.headers[h]) && s.headers[h].index[at] < |s.keys|
       case JValue(e) => e < |s.vals| && 0 <= s.vals[e]
       case JMove(e, b) => b < |s.mem| && i / BLOCK_SIZE < |s.uses| && i % BLOCK_SIZE < |s.mem[b]|
           && s.mem[b][i % BLOCK_SIZE].Full?
       case JCount(e, b, _) => b < |s.done| && i / BLOCK_SIZE < |s.uses|
       case JClear(e, _, _) => e < |s.vals| && i / BLOCK_SIZE < |s.uses|
       case JFree(b, _) => b < |s.owner| && i / BLOCK_SIZE < |s.uses|
       case _ => true
  }

  function LoadHeader<T>(s: State<T>, t: nat): State<T>
    requires JobInRange(s, t) && s.jobs[t].JHeader?
  {
    s.(jobs := s.jobs[t := JTail(|s.headers| - 1)])
  }

  function LoadTail<T>(s: State<T>, t: nat): State<T>
    requires JobInRange(s, t) && s.jobs[t].JTail?
  {
    var h := s.jobs[t].h;
    s.(jobs := s.jobs[t := JKey(h, s.headers[h].tail, TailBlock(s, h))])
  }

  /** The block start sought lies `offset` blocks after the key at the tail (before it, when negative). */
  function LoadKey<T>(s: State<T>, t: nat): State<T>
    requires JobInRange(s, t) && s.jobs[t].JKey?
  {
    var h := s.headers[s.jobs[t].h];
    var at := s.jobs[t].at;
    var start := s.c.pcs[t].i - s.c.pcs[t].i % BLOCK_SIZE;
    var offset := (start - s.keys[h.index[at]]) / BLOCK_SIZE;
    s.(jobs := s.jobs[t := JValue(h.index[(at + offset) % Cap(h)])])
  }

  function LoadValue<T>(s: State<T>, t: nat): State<T>
    requires JobInRange(s, t) && s.jobs[t].JValue?
  {
    var e := s.jobs[t].e;
    s.(jobs := s.jobs[t := JMove(e, s.vals[e])])
  }

  function MoveOut<T>(s: State<T>, t: nat): State<T>
    requires JobInRange(s, t) && s.jobs[t].JMove?
  {
    var j, k := s.c.pcs[t].i / BLOCK_SIZE, s.c.pcs[t].i % BLOCK_SIZE;
    var b := s.jobs[t].b;
    s.(mem := s.mem[b := s.mem[b][k := Raw]], jobs := s.jobs[t := JCount(s.jobs[t].e, b, s.mem[b][k].v)],
       uses := s.uses[j := s.uses[j].(taken := s.uses[j].taken + {k})])
  }

  function SetEmpty<T>(s: State<T>, t: nat): State<T>
    requires JobInRange(s, t) && s.jobs[t].JCount?
  {
    var j, k := s.c.pcs[t].i / BLOCK_SIZE, s.c.pcs[t].i % BLOCK_SIZE;
    var p := s.jobs[t];
    var last := s.done[p.b] == BLOCK_SIZE - 1;
    s.(done := s.done[p.b := s.done[p.b] + 1], jobs := s.jobs[t := if last then JClear(p.e, p.b, p.v) else JDone(p.v)],
       uses := s.uses[j := s.uses[j].(fin := s.uses[j].fin + {k},
                                      stage := if last then Drained(t) else s.uses[j].stage)])
  }

  function ClearEntry<T>(s: State<T>, t: nat): State<T>
    requires JobInRange(s, t) && s.jobs[t].JClear?
  {
    var j, p := s.c.pcs[t].i / BLOCK_SIZE, s.jobs[t];
    s.(vals := s.vals[p.e := NULL], jobs := s.jobs[t := JFree(p.b, p.v)],
       uses := s.uses[j := s.uses[j].(stage := Cleared(t))])
  }

  function FreeBlock<T>(s: State<T>, t: nat): State<T>
    requires JobInRange(s, t) && s.jobs[t].JFree?
  {
    var j, p := s.c.pcs[t].i / BLOCK_SIZE, s.jobs[t];
    s.(owner := s.owner[p.b := Pool], jobs := s.jobs[t := JDone(p.v)],
       uses := s.uses[j := s.uses[j].(stage := Released)])
  }

  function Return<T>(s: State<T>, t: nat): State<T>
    requires JobInRange(s, t) && s.jobs[t].JDone?
  {
    s.(c := C.Finish(s.c, t))
  }

  function DequeueStep<T>(s: State<T>, t: nat): State<T>
    requires t < |s.jobs| == |s.c.pcs| && (s.c.pcs[t].Have? ==> JobInRange(s, t))
  {
    if !s.c.pcs[t].Have? then Count(s, t)
    else
      match s.jobs[t]
      case JHeader => LoadHeader(s, t)
      case JTail(_) => LoadTail(s, t)
      case JKey(_, _, _) => LoadKey(s, t)
      case JValue(_) => LoadValue(s, t)
      case JMove(_, _) => MoveOut(s, t)
      case JCount(_, _, _) => SetEmpty(s, t)
      case JClear(_, _, _) => ClearEntry(s, t)
      case JFree(_, _) => FreeBlock(s, t)
      case JDone(_) => Return(s, t)
  }

  // ---- invariant: the block index -------------------------------------------------------------

  ghost predicate HeaderOk(h: Header, slots: seq<nat>) {
    && 0 < Cap(h) && h.tail < Cap(h) && h.base <= h.lo <= h.hi <= |slots| && h.hi <= h.lo + Cap(h)
    && forall k :: h.lo <= k < h.hi ==> At(h, k) == slots[k]
  }

  ghost predicate HeadersOk(headers: seq<Header>, slots: seq<nat>) {
    && (forall h :: 0 <= h < |headers| ==> HeaderOk(headers[h], slots))
    && (forall h :: 0 <= h < |headers| - 1 ==>
        headers[h].lo < headers[h].hi && headers[h].tail == Pos(headers[h], headers[h].hi - 1))
  }

  function ValueOf(u: Use): int { if u.stage.Active? || u.stage.Drained? then u.block else NULL }

  predicate Dead(u: Use) { u.stage.Cleared? || u.stage.Released? }

  /** The entries of the current index in ring order: those of the blocks lo .. hi - 1, with their keys, then
      entries never used. */
  ghost predicate Keyed(h: Header, keys: seq<int>)
    requires 0 < Cap(h)
  {
    && (forall k :: h.lo <= k < h.lo + Cap(h) ==> At(h, k) < |keys|)
    && (forall k, l :: h.lo <= k < l < h.lo + Cap(h) ==> At(h, k) != At(h, l))
    && (forall k :: h.lo <= k < h.hi ==> At(h, k) < |keys| && keys[At(h, k)] == BLOCK_SIZE * k)
    && (forall k :: h.hi <= k < h.lo + Cap(h) ==> At(h, k) < |keys| && keys[At(h, k)] == INVALID)
  }

  ghost predicate Valued(h: Header, vals: seq<int>, uses: seq<Use>)
    requires 0 < Cap(h)
  {
    && h.lo <= |uses|
    && (forall k :: h.lo <= k < |uses| ==> At(h, k) < |vals| && vals[At(h, k)] == ValueOf(uses[k]))
    && (forall k :: 0 <= k < h.lo ==> Dead(uses[k]))
  }

  ghost predicate IndexOk<T>(s: State<T>) {
    && Sized(s) && HeadersOk(s.headers, s.slots)
    && Cur(s).hi == |s.slots| && Keyed(Cur(s), s.keys) && Valued(Cur(s), s.vals, s.uses)
  }

  // ---- invariant: the blocks ------------------------------------------------------------------

  function CellOf<T>(u: Use, j: nat, k: nat, enq: seq<T>): Cell<T> {
    if k in u.taken || |enq| <= BLOCK_SIZE * j + k then Raw else Full(enq[BLOCK_SIZE * j + k])
  }

  ghost predicate CellsOk<T>(cells: seq<Cell<T>>, u: Use, j: nat, enq: seq<T>) {
    |cells| == BLOCK_SIZE && forall k :: 0 <= k < BLOCK_SIZE ==> cells[k] == CellOf(u, j, k, enq)
  }

  ghost predicate SlotsOk(u: Use) {
    && C.Below(u.taken, BLOCK_SIZE) && u.fin <= u.taken
    && (|u.fin| < BLOCK_SIZE <==> u.stage.Active?)
  }

  /** The thread a stage names is the one at the place in the code that goes with it. */
  predicate Placed<T>(stage: Stage, j: nat, pcs: seq<C.Pc>, jobs: seq<Job<T>>) {
    match stage
    case Drained(t) => t < |pcs| && t < |jobs| && pcs[t].Have? && pcs[t].i / BLOCK_SIZE == j && jobs[t].JClear?
    case Cleared(t) => t < |pcs| && t < |jobs| && pcs[t].Have? && pcs[t].i / BLOCK_SIZE == j && jobs[t].JFree?
    case _ => true
  }

  ghost predicate UseOk<T>(u: Use, j: nat, done: seq<nat>, mem: seq<seq<Cell<T>>>, owner: seq<Owner>, enq: seq<T>,
                           head: nat)
    requires |done| == |mem| == |owner|
  {
    && u.block < |done| && SlotsOk(u) && (forall k :: k in u.taken ==> BLOCK_SIZE * j + k < head)
    && (!u.stage.Released? ==>
          owner[u.block] == UsedBy(j) && done[u.block] == |u.fin| && CellsOk(mem[u.block], u, j, enq))
  }

  ghost predicate Uses<T>(s: State<T>)
    requires Sized(s)
  {
    forall j :: 0 <= j < |s.uses| ==>
      UseOk(s.uses[j], j, s.done, s.mem, s.owner, s.enq, s.c.head) && Placed(s.uses[j].stage, j, s.c.pcs, s.jobs)
  }

  predicate AllRaw<T>(cells: seq<Cell<T>>) {
    |cells| == BLOCK_SIZE && forall k :: 0 <= k < BLOCK_SIZE ==> cells[k].Raw?
  }

  /** A block in the pool, or just out of it, holds nothing; a block in use is in use once. */
  ghost predicate BlockOk<T>(o: Owner, b: nat, cells: seq<Cell<T>>, uses: seq<Use>, prod: Enqueuer<T>) {
    match o
    case Pool => AllRaw(cells)
    case Mine => AllRaw(cells) && (prod.PReset? || prod.PVal?) && prod.b == b
    case UsedBy(j) => j < |uses| && uses[j].block == b && !uses[j].stage.Released?
  }

  ghost predicate Blocks<T>(s: State<T>)
    requires Sized(s)
  {
    forall b :: 0 <= b < |s.owner| ==> BlockOk(s.owner[b], b, s.mem[b], s.uses, s.prod)
  }

  // ---- invariant: the threads -----------------------------------------------------------------

  /** Index i is claimed and its element still in place. */
  predicate Pending(i: nat, uses: seq<Use>) {
    var j := i / BLOCK_SIZE;
    j < |uses| && uses[j].stage.Active? && i % BLOCK_SIZE !in uses[j].taken
  }

  ghost predicate JobOk<T>(t: nat, p: C.Pc, job: Job<T>, headers: seq<Header>, slots: seq<nat>, uses: seq<Use>,
                           enq: seq<T>)
    requires |uses| <= |slots| && forall h :: 0 <= h < |headers| ==> 0 < Cap(headers[h])
  {
    p.Have? ==>
      var i := p.i;
      var j := i / BLOCK_SIZE;
      && i < |enq| && j < |uses|
      && match job
         case JHeader => Pending(i, uses)
         case JTail(h) => Pending(i, uses) && h < |headers| && headers[h].lo <= j < headers[h].hi
         case JKey(h, at, m) =>
           && Pending(i, uses) && h < |headers| && j <= m < |slots|
           && at == Pos(headers[h], m) && At(headers[h], m) == slots[m] && At(headers[h], j) == slots[j]
         case JValue(e) => Pending(i, uses) && e == slots[j]
         case JMove(e, b) => Pending(i, uses) && e == slots[j] && b == uses[j].block
         case JCount(e, b, v) =>
           && uses[j].stage.Active? && i % BLOCK_SIZE in uses[j].taken && i % BLOCK_SIZE !in uses[j].fin
           && e == slots[j] && b == uses[j].block && v == enq[i]
         case JClear(e, b, v) =>
           && uses[j].stage == Drained(t) && i % BLOCK_SIZE in uses[j].fin
           && e == slots[j] && b == uses[j].block && v == enq[i]
         case JFree(b, v) =>
           uses[j].stage == Cleared(t) && i % BLOCK_SIZE in uses[j].fin && b == uses[j].block && v == enq[i]
         case JDone(v) => i % BLOCK_SIZE in uses[j].fin && v == enq[i]
  }

  /** An index claimed is counted as moved out, or its claimer is still at it. */
  predicate ClaimOk<T>(i: nat, t: nat, pcs: seq<C.Pc>, jobs: seq<Job<T>>, uses: seq<Use>) {
    && i / BLOCK_SIZE < |uses|
    && (i % BLOCK_SIZE in uses[i / BLOCK_SIZE].fin
        || (t < |pcs| && t < |jobs| && pcs[t] == C.Have(i) && !jobs[t].JClear? && !jobs[t].JFree? && !jobs[t].JDone?))
  }

  ghost predicate Claimed<T>(s: State<T>) {
    |s.claimer| == s.c.head && forall i :: 0 <= i < |s.claimer| ==> ClaimOk(i, s.claimer[i], s.c.pcs, s.jobs, s.uses)
  }

  ghost predicate Jobs<T>(s: State<T>)
    requires Sized(s)
  {
    forall t :: 0 <= t < |s.jobs| ==> JobOk(t, s.c.pcs[t], s.jobs[t], s.headers, s.slots, s.uses, s.enq)
  }

  /** The next entry may be given to block n: it was never used, or the block it was given to is gone. */
  ghost predicate Reusable<T>(s: State<T>)
    requires Sized(s)
  {
    var n, h := |s.uses|, Cur(s);
    |s.slots| == n + 1 || n < h.lo + Cap(h) || (n == h.lo + Cap(h) && h.lo < n && Dead(s.uses[h.lo]))
  }

  ghost predicate Between<T>(s: State<T>)
    requires Sized(s)
  {
    && Cur(s).tail == Pos(Cur(s), |s.uses| - 1) && |s.enq| == s.c.tail
    && (|s.slots| == |s.uses| + 1 ==> s.slots[|s.uses|] < |s.vals| && s.vals[s.slots[|s.uses|]] == NULL)
  }

  ghost predicate Reserved<T>(s: State<T>, e: nat, at: int)
    requires Sized(s)
  {
    && |s.slots| == |s.uses| + 1 && s.slots[|s.uses|] == e < |s.vals| && |s.enq| == s.c.tail == BLOCK_SIZE * |s.uses|
    && Cur(s).tail == Pos(Cur(s), at)
  }

  ghost predicate Writing<T>(s: State<T>)
    requires Sized(s)
  {
    && |s.slots| == |s.uses| && Cur(s).tail == Pos(Cur(s), |s.uses| - 1)
    && BLOCK_SIZE * (|s.uses| - 1) <= s.c.tail < BLOCK_SIZE * |s.uses|
  }

  ghost predicate ProdOk<T>(s: State<T>)
    requires Sized(s)
  {
    var n := |s.uses|;
    match s.prod
    case PIdle => Between(s) && BLOCK_SIZE * (n - 1) < s.c.tail <= BLOCK_SIZE * n
        && (s.c.tail == BLOCK_SIZE * n || |s.slots| == n)
    case PHead(_) => Between(s) && s.c.tail == BLOCK_SIZE * n
    case PSlot(_) => Between(s) && s.c.tail == BLOCK_SIZE * n
    case PGrow(_) => Between(s) && s.c.tail == BLOCK_SIZE * n && |s.slots| == n == Cur(s).lo + Cap(Cur(s))
    case PKey(_, e, at) =>
      && Cur(s).tail == Pos(Cur(s), n - 1) && |s.enq| == s.c.tail == BLOCK_SIZE * n
      && at == Pos(Cur(s), n) && At(Cur(s), n) == e < |s.keys| && Reusable(s)
    case PTail(_, e, at) => Reserved(s, e, n - 1) && at == Pos(Cur(s), n)
    case PReq(_, e) => Reserved(s, e, n)
    case PRewind(e) => Reserved(s, e, n)
    case PNull(e) => Reserved(s, e, n - 1)
    case PReset(_, e, b) => Reserved(s, e, n) && b < |s.owner| && s.owner[b].Mine?
    case PVal(_, e, b) => Reserved(s, e, n) && b < |s.owner| && s.owner[b].Mine? && s.done[b] == 0
    case PWrite(_) => Writing(s) && |s.enq| == s.c.tail
    case PPub(_) => Writing(s) && |s.enq| == s.c.tail + 1
  }

  ghost predicate Inv<T>(s: State<T>) {
    C.Inv(s.c) && Sized(s) && IndexOk(s) && Uses(s) && Blocks(s) && Jobs(s) && Claimed(s) && ProdOk(s)
  }
}
