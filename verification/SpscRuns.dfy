/** What holds of every run of the single-producer/single-consumer queue, from its construction on. */
module SpscRuns {
  import opened SpscMachine

  // ---- construction ---------------------------------------------------------------------------

  ghost predicate Fresh<T>(b: Block<T>, size: nat) {
    && b.size == size && |b.data| == size && |b.alive| == size
    && b.front == b.tail == b.localFront == b.localTail == 0
    && forall c :: 0 <= c < size ==> !b.alive[c]
  }

  /** The queue as its constructor leaves it: n empty blocks of one size in a ring. */
  ghost predicate Initial<T>(s: State<T>, n: nat, size: nat) {
    && 1 <= n == |s.blocks| && 2 <= size && s.largest == size
    && s.frontBlock == s.tailBlock == 0 && s.used == 1 && s.ring == seq(n, i => i)
    && (forall i :: 0 <= i < n ==>
      Fresh(s.blocks[i], size) && s.blocks[i].next == if i + 1 == n then 0 else i + 1)
    && s.prod.PIdle? && s.cons.CIdle? && s.enq == s.deq == []
    && s.reply.NoReply? && s.answer.NoAnswer?
  }

  lemma InitialInv<T>(s: State<T>, n: nat, size: nat)
    requires Initial(s, n, size)
    ensures Inv(s)
  {
    assert Concat(s.blocks, s.ring, 1) == Concat(s.blocks, s.ring, 0) + Elems(s.blocks[0]);
  }

  // ---- runs -----------------------------------------------------------------------------------

  lemma StepKeepsInv<T>(s: State<T>, c: Choice<T>)
    requires Inv(s)
    ensures Inv(Step(s, c))
  {
    hide Inv;
    match c
    case Produce(x, canAlloc, mallocOk, junk) => ProducerKeepsInv(s, x, canAlloc, mallocOk, junk);
    case Consume(peek) => ConsumerKeepsInv(s, peek);
  }

  lemma ProducerKeepsInv<T>(s: State<T>, x: T, canAlloc: bool, mallocOk: bool, junk: T)
    requires Inv(s)
    ensures Inv(ProducerStep(s, x, canAlloc, mallocOk, junk))
  {
    hide Inv;
    match s.prod
    case PIdle => KeepStartEnqueue(s, x, canAlloc);
    case PReadFront(_, _) => KeepReadFront(s);
    case PWrite(_) => KeepWriteTail(s);
    case PPublish(_) => KeepPublishTail(s);
    case PCheckNext(_, _) => KeepCheckNext(s);
    case PReadNextFront(_) => KeepReadNextFront(s);
    case PWriteNext(_, _) => KeepWriteNext(s);
    case PPublishNext(_, _) => KeepPublishNext(s);
    case PAlloc(_) => KeepAlloc(s, mallocOk, junk);
    case PLink(_, _) => KeepLinkBlock(s);
    case PAdvance(_, _) => KeepAdvanceTail(s);
  }

  lemma ConsumerKeepsInv<T>(s: State<T>, peek: bool)
    requires Inv(s)
    ensures Inv(ConsumerStep(s, peek))
  {
    hide Inv;
    match s.cons
    case CIdle => KeepStartDequeue(s, peek);
    case CReadTail(_) => KeepReadTail(s);
    case CReadTailBlock(_) => KeepReadTailBlock(s);
    case CRecheck(_) => KeepRecheck(s);
    case CReadNext(_) => KeepReadNext(s);
    case CReadNextTail(_, _) => KeepReadNextTail(s);
    case CAdvance(_) => KeepAdvanceFront(s);
    case CTake(_) => KeepTake(s);
    case CRelease(_) => KeepRelease(s);
  }

  /** The state after the choices of `run`, one step each, in whatever order the threads are scheduled. */
  ghost function Exec<T>(s: State<T>, run: seq<Choice<T>>): (r: State<T>)
    requires Inv(s)
    ensures Inv(r)
    decreases |run|
  {
    if run == [] then s
    else
      StepKeepsInv(s, run[0]);
      Exec(Step(s, run[0]), run[1..])
  }

  // ---- safety ---------------------------------------------------------------------------------

  /** The assertions of the code about the step to come, and the discipline of the raw cells: an element is
      constructed only in a dead cell and moved out only of a live one. */
  ghost predicate AssertsHold<T>(s: State<T>)
    requires Indexed(s)
  {
    var tb, fb := s.blocks[s.tailBlock], s.blocks[s.frontBlock];
    && (s.cons.CReadNextTail? ==> s.blocks[s.cons.nb].front != s.blocks[s.cons.nb].tail)
    && (s.cons.CTake? ==> fb.alive[fb.front])
    && (s.prod.PReadNextFront? ==> s.blocks[tb.next].front == s.blocks[tb.next].tail)
    && (s.prod.PWrite? ==> !tb.alive[tb.tail])
    && (s.prod.PWriteNext? ==> !s.blocks[s.prod.nb].alive[s.blocks[s.prod.nb].tail])
  }

  lemma ConsumerAsserts<T>(s: State<T>)
    requires Inv(s)
    ensures s.cons.CReadNextTail? ==> s.blocks[s.cons.nb].front != s.blocks[s.cons.nb].tail
    ensures s.cons.CTake? ==> s.blocks[s.frontBlock].alive[s.blocks[s.frontBlock].front]
  {
    if s.cons.CReadNextTail? {
      NextOfFront(s);
    } else if s.cons.CTake? {
      Basics(s, s.frontBlock);
      hide Cells, RingInv, Tables;
      TakeCells(s.blocks[s.frontBlock], s.frontBlock == Written(s));
    }
  }

  lemma ProducerAsserts<T>(s: State<T>)
    requires Inv(s)
    ensures s.prod.PReadNextFront? ==>
      var nb := s.blocks[s.tailBlock].next; s.blocks[nb].front == s.blocks[nb].tail
    ensures s.prod.PWrite? ==> !s.blocks[s.tailBlock].alive[s.blocks[s.tailBlock].tail]
    ensures s.prod.PWriteNext? ==> !s.blocks[s.prod.nb].alive[s.blocks[s.prod.nb].tail]
  {
    if s.prod.PReadNextFront? {
      NextOfTail(s);
      SpareIsEmpty(s);
    } else if s.prod.PWrite? {
      Basics(s, s.tailBlock);
      hide Cells, RingInv, Tables;
      WriteCells(s.blocks[s.tailBlock], s.prod.x, s.tailBlock == Moved(s));
    } else if s.prod.PWriteNext? {
      NextOfTail(s);
      SpareIsEmpty(s);
      Basics(s, s.prod.nb);
      hide Cells, RingInv, Tables;
      WriteCells(s.blocks[s.prod.nb], s.prod.x, s.prod.nb == Moved(s));
    }
  }

  // ---- what the calls answer --------------------------------------------------------------------

  /** The call under way is a peek or not, throughout. */
  predicate Peeks<T>(c: Consumer<T>, peek: bool) {
    match c
    case CIdle => true
    case CReadTail(p) => p == peek
    case CReadTailBlock(p) => p == peek
    case CRecheck(p) => p == peek
    case CReadNext(p) => p == peek
    case CReadNextTail(p, _) => p == peek
    case CAdvance(_) => !peek
    case CTake(p) => p == peek
    case CRelease(_) => !peek
  }

  /** What the consumer's steps leave alone, and what they may answer. */
  lemma ConsumerEffect<T>(s: State<T>, peek: bool)
    requires Indexed(s) && Peeks(s.cons, peek)
    ensures var s' := ConsumerStep(s, peek);
      && s'.prod == s.prod && s'.enq == s.enq && Peeks(s'.cons, peek) && (s.cons.CIdle? ==> !s'.cons.CIdle?)
      && (!s'.cons.CIdle? ==> s'.deq == s.deq)
      && (peek ==> s'.deq == s.deq && (s'.cons.CIdle? ==> s'.answer.Peeked? || s'.answer.Refused?))
      && (!peek && s'.cons.CIdle? ==> s'.answer.Took? || s'.answer.Refused?)
      && (s'.cons.CIdle? && s'.answer.Took? && !peek ==> |s'.deq| == |s.deq| + 1)
  {
    hide Tables, Succ, Rotated;
  }

  /** The element at the front of the front block is the oldest one not dequeued. */
  lemma FrontIsNext<T>(s: State<T>)
    requires Inv(s) && !IsEmpty(s.blocks[s.frontBlock])
    ensures |s.deq| < |s.enq| && s.enq[|s.deq|] == s.blocks[s.frontBlock].data[s.blocks[s.frontBlock].front]
  {
    Basics(s, s.frontBlock);
    ElemsHead(s.blocks[s.frontBlock]);
    ConcatHead(s.blocks, s.ring, s.used);
  }

  lemma ElemsHead<T>(b: Block<T>)
    requires BlockOk(b) && !IsEmpty(b)
    ensures Elems(b) != [] && Elems(b)[0] == b.data[b.front]
  {
  }

  lemma {:induction false} ConcatHead<T>(blocks: seq<Block<T>>, ring: seq<nat>, k: nat)
    requires AllOk(blocks) && Ids(blocks, ring) && 0 < k <= |ring| && Elems(blocks[ring[0]]) != []
    ensures Concat(blocks, ring, k) != [] && Concat(blocks, ring, k)[0] == Elems(blocks[ring[0]])[0]
  {
    if k == 1 {
      assert Concat(blocks, ring, 0) == [];
    } else {
      ConcatHead(blocks, ring, k - 1);
    }
  }

  /** With an empty front block and another one behind it, the oldest element is at the front of that one. */
  lemma NextIsNext<T>(s: State<T>)
    requires Inv(s) && 1 < s.used && IsEmpty(s.blocks[s.frontBlock])
    ensures var b := s.blocks[s.ring[1]];
      |s.deq| < |s.enq| && s.enq[|s.deq|] == b.data[b.front]
  {
    NextOfFront(s);
    Basics(s, s.ring[1]);
    ElemsHead(s.blocks[s.ring[1]]);
    ElemsLength(s.blocks[s.ring[0]]);
    ConcatSecond(s.blocks, s.ring, s.used);
  }

  lemma {:induction false} ConcatSecond<T>(blocks: seq<Block<T>>, ring: seq<nat>, k: nat)
    requires AllOk(blocks) && Ids(blocks, ring) && 1 < k <= |ring|
    requires Elems(blocks[ring[0]]) == [] && Elems(blocks[ring[1]]) != []
    ensures Concat(blocks, ring, k) != [] && Concat(blocks, ring, k)[0] == Elems(blocks[ring[1]])[0]
  {
    hide Elems, Concat;
    ConcatStep(blocks, ring, k);
    ConcatStep(blocks, ring, k - 1);
    if k != 2 { ConcatSecond(blocks, ring, k - 1); }
  }

  lemma ConcatStep<T>(blocks: seq<Block<T>>, ring: seq<nat>, k: nat)
    requires AllOk(blocks) && Ids(blocks, ring) && 0 < k <= |ring|
    ensures Concat(blocks, ring, k) == Concat(blocks, ring, k - 1) + Elems(blocks[ring[k - 1]])
    ensures Concat(blocks, ring, 0) == []
  {
    hide Elems;
  }

  lemma NonEmptyFront<T>(s: State<T>)
    requires Inv(s) && (s.cons.CTake? || s.cons.CRelease?)
    ensures !IsEmpty(s.blocks[s.frontBlock])
  {
    Basics(s, s.frontBlock);
  }

  /** When a consumer call finishes, it has taken or shown the oldest element, or it has refused, and then
      the queue was empty when the call loaded the tail. */
  lemma ConsumerAnswers<T>(s: State<T>, peek: bool)
    requires Inv(s) && ConsumerStep(s, peek).cons.CIdle?
    ensures
      var s' := ConsumerStep(s, peek);
      match s'.answer
      case Took(v) => |s.deq| < |s.enq| && v == s.enq[|s.deq|] && s'.deq == s.deq + [v] && s'.enq == s.enq
      case Peeked(v) => |s.deq| < |s.enq| && v == s.enq[|s.deq|] && s'.deq == s.deq && s'.enq == s.enq
      case Refused => s.sawEmpty && s'.deq == s.deq && s'.enq == s.enq
      case NoAnswer => false
  {
    match s.cons
    case CReadTailBlock(_) =>
    case CReadNextTail(_, _) => NextIsNext(s);
    case CTake(_) => NonEmptyFront(s); FrontIsNext(s);
    case CRelease(_) => NonEmptyFront(s); FrontIsNext(s);
    case _ =>
  }

  /** A queue that is not empty, with no stale sight of emptiness in a call under way. */
  ghost predicate Promised<T>(s: State<T>) {
    |s.deq| < |s.enq| && (s.cons.CReadTailBlock? ==> !s.sawEmpty)
  }

  /** From a call's start on a non-empty queue to its end, neither thread's steps can make it refuse. */
  lemma PromiseKept<T>(s: State<T>, c: Choice<T>)
    requires Inv(s) && Promised(s)
    ensures var s' := Step(s, c);
      Promised(s') || (c.Consume? && s'.cons.CIdle? && s'.answer.Took?)
    ensures c.Consume? && Step(s, c).cons.CIdle? ==> !Step(s, c).answer.Refused?
  {
    hide Inv, ProducerStep, ConsumerStep;
    IsIndexed(s);
    match c
    case Produce(x, canAlloc, mallocOk, junk) => ProducerEffect(s, x, canAlloc, mallocOk, junk);
    case Consume(peek) => ConsumerKeepsPromise(s, peek);
  }

  /** What the producer's steps leave alone, and that they enqueue exactly when a call ends accepted. */
  lemma ProducerEffect<T>(s: State<T>, x: T, canAlloc: bool, mallocOk: bool, junk: T)
    requires Indexed(s)
    ensures var s' := ProducerStep(s, x, canAlloc, mallocOk, junk);
      && s'.cons == s.cons && s'.deq == s.deq && s'.sawEmpty == s.sawEmpty && (s.prod.PIdle? ==> !s'.prod.PIdle?)
      && |s'.enq| == |s.enq| + (if s'.prod.PIdle? && s'.reply.Accepted? then 1 else 0)
  {
    hide Tables, Succ, NewBlock, Inserted;
  }

  lemma ConsumerKeepsPromise<T>(s: State<T>, peek: bool)
    requires Inv(s) && Promised(s)
    ensures var s' := ConsumerStep(s, peek);
      && (Promised(s') || (s'.cons.CIdle? && s'.answer.Took?)) && (s'.cons.CIdle? ==> !s'.answer.Refused?)
  {
    hide Inv, ConsumerStep;
    IsIndexed(s);
    if ConsumerStep(s, peek).cons.CIdle? {
      ConsumerAnswers(s, peek);
      if ConsumerStep(s, peek).answer.Refused? { RefusesThere(s, peek); }
    } else {
      ConsumerGoesOn(s, peek);
    }
  }

  lemma RefusesThere<T>(s: State<T>, peek: bool)
    requires Indexed(s) && ConsumerStep(s, peek).cons.CIdle? && ConsumerStep(s, peek).answer.Refused?
    ensures s.cons.CReadTailBlock?
  {
    hide Tables, Rotated, Succ;
  }

  lemma ConsumerGoesOn<T>(s: State<T>, peek: bool)
    requires Indexed(s) && Promised(s) && !ConsumerStep(s, peek).cons.CIdle?
    ensures Promised(ConsumerStep(s, peek))
  {
    hide Tables, Rotated, Succ;
  }

  lemma IsIndexed<T>(s: State<T>)
    requires Inv(s)
    ensures Indexed(s)
  {
    hide ProducerInv, ConsumerInv, Fifo, Cells;
  }

  // ---- progress -------------------------------------------------------------------------------

  function ProducerRank<T>(p: Producer<T>): nat {
    match p
    case PIdle => 0
    case PPublish(_) => 1
    case PAdvance(_, _) => 1
    case PWrite(_) => 2
    case PPublishNext(_, _) => 2
    case PLink(_, _) => 2
    case PWriteNext(_, _) => 3
    case PAlloc(_) => 3
    case PReadNextFront(_) => 4
    case PCheckNext(_, _) => 5
    case PReadFront(_, _) => 6
  }

  function ConsumerRank<T>(c: Consumer<T>): nat {
    match c
    case CIdle => 0
    case CRelease(_) => 1
    case CTake(_) => 2
    case CAdvance(_) => 3
    case CReadNextTail(_, _) => 4
    case CReadNext(_) => 5
    case CRecheck(_) => 6
    case CReadTailBlock(_) => 7
    case CReadTail(_) => 8
  }

  ghost function Prefix<T>(s: State<T>, run: seq<Choice<T>>, k: nat): State<T>
    requires Inv(s) && k <= |run|
  {
    Exec(s, run[..k])
  }

  function Turns<T>(run: seq<Choice<T>>, producer: bool): nat {
    if run == [] then 0 else (if run[0].Produce? == producer then 1 else 0) + Turns(run[1..], producer)
  }

  lemma ProducerRankFalls<T>(s: State<T>, x: T, canAlloc: bool, mallocOk: bool, junk: T)
    requires Indexed(s)
    ensures var s' := ProducerStep(s, x, canAlloc, mallocOk, junk);
      s'.cons == s.cons && (s.prod.PIdle? || ProducerRank(s'.prod) < ProducerRank(s.prod))
  {
    hide Tables, PcOk, Succ, NewBlock, Inserted;
  }

  lemma ConsumerRankFalls<T>(s: State<T>, peek: bool)
    requires Indexed(s)
    ensures var s' := ConsumerStep(s, peek);
      s'.prod == s.prod && (s.cons.CIdle? || ConsumerRank(s'.cons) < ConsumerRank(s.cons))
  {
    hide Tables, PcOk, Succ, Rotated;
  }

  lemma RanksFall<T>(s: State<T>, c: Choice<T>)
    requires Inv(s)
    ensures s.prod.PIdle? || ProducerRank(Step(s, c).prod) + (if c.Produce? then 1 else 0) <= ProducerRank(s.prod)
    ensures s.cons.CIdle? || ConsumerRank(Step(s, c).cons) + (if c.Consume? then 1 else 0) <= ConsumerRank(s.cons)
  {
    match c {
      case Produce(x, canAlloc, mallocOk, junk) => ProducerRankFalls(s, x, canAlloc, mallocOk, junk);
      case Consume(peek) => ConsumerRankFalls(s, peek);
    }
    hide Inv, ProducerRank, ConsumerRank, ProducerStep, ConsumerStep;
  }

  lemma PrefixStep<T>(s: State<T>, run: seq<Choice<T>>, k: nat)
    requires Inv(s) && 0 < |run| && k < |run|
    ensures Inv(Step(s, run[0])) && Prefix(s, run, k + 1) == Prefix(Step(s, run[0]), run[1..], k)
    ensures Prefix(s, run, 0) == s
  {
    hide Inv, Step;
    StepKeepsInv(s, run[0]);
    assert run[..0] == [];
    assert run[..k + 1][1..] == run[1..][..k];
  }

  /** Calls are wait-free: a call under way is over after as many of its own thread's steps as its rank, at
      most 6 for the producer, however the other thread's steps fall in between. */
  lemma {:induction false} ProducerFinishes<T>(s: State<T>, run: seq<Choice<T>>)
    requires Inv(s) && ProducerRank(s.prod) <= Turns(run, true)
    ensures exists k: nat :: k <= |run| && Prefix(s, run, k).prod.PIdle?
    decreases |run|
  {
    if run == [] || s.prod.PIdle? {
      assert run[..0] == [];
      assert s.prod.PIdle? && Prefix(s, run, 0).prod.PIdle?;
    } else {
      RanksFall(s, run[0]);
      PrefixStep(s, run, 0);
      hide Inv, Step, Exec, Prefix, ProducerRank, ConsumerRank;
      ProducerFinishes(Step(s, run[0]), run[1..]);
      var k: nat :| k <= |run[1..]| && Prefix(Step(s, run[0]), run[1..], k).prod.PIdle?;
      PrefixStep(s, run, k);
    }
  }

  /** The same for the consumer, with at most 8 steps. */
  lemma {:induction false} ConsumerFinishes<T>(s: State<T>, run: seq<Choice<T>>)
    requires Inv(s) && ConsumerRank(s.cons) <= Turns(run, false)
    ensures exists k: nat :: k <= |run| && Prefix(s, run, k).cons.CIdle?
    decreases |run|
  {
    if run == [] || s.cons.CIdle? {
      assert run[..0] == [];
      assert s.cons.CIdle? && Prefix(s, run, 0).cons.CIdle?;
    } else {
      RanksFall(s, run[0]);
      PrefixStep(s, run, 0);
      hide Inv, Step, Exec, Prefix, ProducerRank, ConsumerRank;
      ConsumerFinishes(Step(s, run[0]), run[1..]);
      var k: nat :| k <= |run[1..]| && Prefix(Step(s, run[0]), run[1..], k).cons.CIdle?;
      PrefixStep(s, run, k);
    }
  }
}
