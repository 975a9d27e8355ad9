/** The queue of readerwriterqueue.h as the data structure it is, used by one thread at a time: circular blocks
    with shadow indices, linked into a ring that grows. SpscMachine takes the same operations apart for two
    threads. */
module SpscQueue {
  import Bits
  import opened M = SpscMachine
  import C = SpscCapacity

  datatype Option<T> = None | Some(value: T)

  // ---- sequences of blocks' contents ------------------------------------------------------------

  function Flat<T>(parts: seq<seq<T>>): seq<T> {
    if parts == [] then [] else parts[0] + Flat(parts[1..])
  }

  lemma {:induction false} FlatAppend<T>(parts: seq<seq<T>>, p: seq<T>)
    ensures Flat(parts + [p]) == Flat(parts) + p
  {
    if parts == [] {
      assert parts + [p] == [p] && Flat([p]) == p + Flat<T>([]);
    } else {
      assert (parts + [p])[1..] == parts[1..] + [p];
      FlatAppend(parts[1..], p);
    }
  }

  /** Adding to the last part adds to the whole. */
  lemma FlatLast<T>(parts: seq<seq<T>>, x: T)
    requires parts != []
    ensures Flat(parts[|parts| - 1 := parts[|parts| - 1] + [x]]) == Flat(parts) + [x]
  {
    var n := |parts| - 1;
    FlatAppend(parts[..n], parts[n]);
    FlatAppend(parts[..n], parts[n] + [x]);
    assert parts == parts[..n] + [parts[n]];
    assert parts[n := parts[n] + [x]] == parts[..n] + [parts[n] + [x]];
  }

  /** Taking from the first part takes from the whole. */
  lemma FlatFirst<T>(parts: seq<seq<T>>)
    requires parts != [] && parts[0] != []
    ensures Flat(parts) != [] && Flat(parts)[0] == parts[0][0]
    ensures Flat(parts[0 := parts[0][1..]]) == Flat(parts)[1..]
  {
    assert parts[0 := parts[0][1..]][1..] == parts[1..];
  }

  class Block<T> {
    const size: nat
    const data: array<T>
    var front: nat
    var tail: nat
    var localFront: nat
    var localTail: nat
    var next: Block?<T>

    /** make_block: an empty block; the cells hold junk. */
    constructor (size: nat, junk: T)
      requires 2 <= size
      ensures this.size == size && Empty() && next == null && fresh(data)
    {
      this.size, front, tail, localFront, localTail, next := size, 0, 0, 0, 0, null;
      data := new T[size](_ => junk);
    }

    ghost predicate Empty()
      reads this
    {
      front == tail == localFront == localTail == 0 && 2 <= size == data.Length
    }

    /** The consumer's shadow of the tail is not past the tail, the producer's shadow of the front not past the
        front. */
    ghost predicate Ok()
      reads this
    {
      && 2 <= size == data.Length && front < size && tail < size && localFront < size && localTail < size
      && Dist(front, localTail, size) <= Dist(front, tail, size) <= Dist(localFront, tail, size)
    }

    ghost function Elems(): seq<T>
      requires Ok()
      reads this, data
    {
      if front <= tail then data[front..tail] else data[front..] + data[..tail]
    }

    lemma ElemsLength()
      requires Ok()
      ensures |Elems()| == Dist(front, tail, size)
    {
    }

    /** Constructs x in the cell at the tail, which has a free cell after it, and moves the tail on. */
    method PutTail(x: T)
      requires Ok() && Succ(tail, size) != localFront
      modifies this`tail, data
      ensures Ok() && Elems() == old(Elems()) + [x]
    {
      data[tail] := x;
      tail := Succ(tail, size);
    }

    /** Moves the element at the front out. */
    method TakeFront() returns (x: T)
      requires Ok() && Elems() != [] && front != localTail
      modifies this`front
      ensures Ok() && x == old(Elems())[0] && Elems() == old(Elems())[1..]
    {
      x := data[front];
      front := Succ(front, size);
    }

    /** The test for an element at the front: by the shadow, then by the tail itself. */
    method HasFront() returns (r: bool)
      requires Ok()
      modifies this`localTail
      ensures Ok() && Elems() == old(Elems()) && (r <==> Elems() != []) && (r ==> front != localTail)
    {
      ElemsLength();
      if front != localTail { return true; }
      localTail := tail;
      r := front != localTail;
    }

    /** The test for room at the tail: by the shadow, then by the front itself. */
    method HasRoom() returns (r: bool)
      requires Ok()
      modifies this`localFront
      ensures Ok() && Elems() == old(Elems()) && (r ==> Succ(tail, size) != localFront) && (r <==> |Elems()| < size - 1)
    {
      ElemsLength();
      if Succ(tail, size) != localFront { return true; }
      localFront := front;
      r := Succ(tail, size) != localFront;
    }
  }

  // ---- rings of blocks ----------------------------------------------------------------------------

  /** The blocks, and their cells, are all different. */
  ghost predicate Apart<T>(ring: seq<Block<T>>) {
    forall i, j :: 0 <= i < j < |ring| ==> ring[i] != ring[j] && ring[i].data != ring[j].data
  }

  ghost predicate Chained<T>(ring: seq<Block<T>>)
    reads ring
  {
    forall i, j :: 0 <= i < |ring| && 0 <= j < |ring| && (j == i + 1 || (j == 0 && i == |ring| - 1)) ==>
        ring[i].next == ring[j]
  }

  ghost function Arrays<T>(ring: seq<Block<T>>): set<object> { set i | 0 <= i < |ring| :: ring[i].data }

  function PartAt<T>(ps: seq<seq<T>>, i: nat): seq<T> { if i < |ps| then ps[i] else [] }

  /** Every block but block k holds its part, or nothing. */
  ghost predicate Holding<T>(ring: seq<Block<T>>, ps: seq<seq<T>>, k: int)
    reads ring, Arrays(ring)
  {
    forall i :: 0 <= i < |ring| && i != k ==> ring[i].Ok() && ring[i].Elems() == PartAt(ps, i)
  }

  /** No part but the first is empty. */
  ghost predicate Parts<T>(ps: seq<seq<T>>, n: nat) { 0 < |ps| <= n && forall i :: 0 < i < |ps| ==> ps[i] != [] }

  lemma Same<T>(ring: seq<Block<T>>, i: nat, j: nat)
    requires Apart(ring) && i < |ring| && j < |ring| && ring[i] == ring[j]
    ensures i == j
  {
  }

  /** Block k holds p now: as its part, or as one part more. */
  lemma HoldingNow<T>(ring: seq<Block<T>>, ps: seq<seq<T>>, k: nat, p: seq<T>)
    requires Holding(ring, ps, k) && k < |ring| && k <= |ps| && ring[k].Ok() && ring[k].Elems() == p
    requires Parts(ps, |ring|) && (p != [] || k == 0)
    ensures var ps' := if k < |ps| then ps[k := p] else ps + [p]; Holding(ring, ps', -1) && Parts(ps', |ring|)
  {
  }

  lemma HoldingNothing<T>(ring: seq<Block<T>>)
    requires forall i :: 0 <= i < |ring| ==> ring[i].Empty()
    ensures Holding(ring, [[]], -1)
  {
  }

  lemma ApartMore<T>(ring: seq<Block<T>>, b: Block<T>)
    requires Apart(ring) && forall i :: 0 <= i < |ring| ==> ring[i] != b && ring[i].data != b.data
    ensures Apart(ring + [b])
  {
  }

  lemma OnlyLast<T>(ring: seq<Block<T>>)
    requires Apart(ring)
    ensures forall i :: 0 <= i < |ring| - 1 ==> ring[i] != ring[|ring| - 1]
  {
  }

  lemma ChainedMore<T>(ring: seq<Block<T>>, b: Block<T>)
    requires ring != [] && ring[|ring| - 1].next == b && b.next == ring[0]
    requires forall i, j :: 0 <= i < |ring| && 0 <= j < |ring| && j == i + 1 ==> ring[i].next == ring[j]
    ensures Chained(ring + [b])
  {
  }

  lemma HoldingMore<T>(ring: seq<Block<T>>, b: Block<T>, ps: seq<seq<T>>)
    requires Holding(ring, ps, -1)
    ensures Holding(ring + [b], ps, |ring|)
  {
  }

  lemma PartsMore<T>(ps: seq<seq<T>>, n: nat)
    requires Parts(ps, n)
    ensures Parts(ps, n + 1) && 0 < |ps| <= n
  {
  }

  function Turned<T>(ring: seq<T>): seq<T>
    requires ring != []
  {
    ring[1..] + [ring[0]]
  }

  lemma TurnedRing<T>(ring: seq<Block<T>>, ps: seq<seq<T>>)
    requires Apart(ring) && Chained(ring) && Holding(ring, ps, -1) && Parts(ps, |ring|) && 1 < |ps| && ps[0] == []
    ensures Apart(Turned(ring)) && Chained(Turned(ring)) && Holding(Turned(ring), ps[1..], -1) && Parts(ps[1..], |ring|)
    ensures |Turned(ring)| == |ring| && (forall i :: 0 <= i < |ring| ==> Turned(ring)[i] in ring)
    ensures Turned(ring)[0] == ring[1] && Turned(ring)[|ps| - 2] == ring[|ps| - 1] && ps[1] != []
  {
    var r := Turned(ring);
    assert forall i :: 0 <= i < |ring| ==> r[i] == ring[if i == |ring| - 1 then 0 else i + 1];
    assert Apart(r);
    hide Apart;
    assert Chained(r) by { hide Holding; }
    hide Chained;
    assert Holding(r, ps[1..], -1);
  }

  class ReaderWriterQueue<T> {
    var frontBlock: Block<T>
    var tailBlock: Block<T>
    var largestBlockSize: nat

    /** The ring from the front block on, the first |parts| blocks up to the tail block and what each of them
        holds, and the queue's contents. */
    ghost var ring: seq<Block<T>>
    ghost var parts: seq<seq<T>>
    ghost var contents: seq<T>
    ghost var repr: set<object>

    ghost predicate Owns()
      reads this
    {
      (forall i :: 0 <= i < |ring| ==> ring[i] in repr && ring[i].data in repr) && this !in repr
    }

    ghost predicate Valid()
      reads this, repr
    {
      && Owns() && Apart(ring) && Chained(ring) && Holding(ring, parts, -1) && Parts(parts, |ring|)
      && 2 <= largestBlockSize
      && frontBlock == ring[0] && tailBlock == ring[|parts| - 1] && contents == Flat(parts)
    }

    /** Room for maxSize elements: one block, or a ring of equal blocks. */
    constructor (maxSize: nat, junk: T)
      requires 1 <= maxSize < Bits.HALF
      ensures Valid() && fresh(repr) && contents == []
      ensures exists rounded ::
          maxSize < rounded && EqualBlocks(ring, C.BlockCount(maxSize, rounded), C.BlockSize(rounded))
    {
      hide Apart, Chained, Holding;
      var rounded := C.RoundUp(maxSize);
      C.ConstructedRoom(maxSize, rounded);
      var size, n := C.BlockSize(rounded), C.BlockCount(maxSize, rounded);
      var first, ring, repr := MakeRing(n, size, junk);
      hide Flat, Apart, Parts;
      frontBlock, tailBlock, largestBlockSize := first, first, size;
      this.ring, this.repr, parts, contents := ring, repr, [[]], [];
      new;
      assert EqualBlocks(ring, n, size);
      hide C.BlockCount, C.BlockSize, EqualBlocks;
      assert Flat<T>([[]]) == [];
      HoldingNothing(ring);
    }

    // ---- taking -----------------------------------------------------------------------------------

    /** The element at the front of the front block. */
    method TakeHere() returns (x: T)
      requires Valid() && parts[0] != [] && frontBlock.front != frontBlock.localTail
      modifies this, frontBlock`front
      ensures Valid() && old(contents) != [] && x == old(contents)[0] && contents == old(contents)[1..]
          && repr == old(repr)
    {
      FlatFirst(parts);
      hide Flat, Parts;
      x := frontBlock.TakeFront();
      assert Holding(ring, parts, 0);
      HoldingNow(ring, parts, 0, parts[0][1..]);
      Become(frontBlock, tailBlock, largestBlockSize, ring, parts[0 := parts[0][1..]], repr);
    }

    /** On to the next block, when the front block is empty but not the tail block. */
    method AdvanceFront()
      requires Valid() && parts[0] == [] && frontBlock != tailBlock
      modifies this, repr
      ensures Valid() && parts[0] != [] && frontBlock.front != frontBlock.localTail
      ensures contents == old(contents) && repr == old(repr)
    {
      SecondFirst();
      LookNext();
      hide Flat, Apart, Chained;
      assert Holding(ring, parts, -1);
      hide Holding;
      TurnedRing(ring, parts);
      hide Parts;
      Become(frontBlock.next, tailBlock, largestBlockSize, Turned(ring), parts[1..], repr);
    }

    /** The fields change; the blocks do not. */
    method Become(first: Block<T>, last: Block<T>, largest: nat, ghost ring: seq<Block<T>>, ghost parts: seq<seq<T>>,
                  ghost repr: set<object>)
      requires this !in repr && forall i :: 0 <= i < |ring| ==> ring[i] in repr && ring[i].data in repr
      requires Apart(ring) && Chained(ring) && Holding(ring, parts, -1) && Parts(parts, |ring|) && 2 <= largest
      requires first == ring[0] && last == ring[|parts| - 1]
      modifies this
      ensures Valid() && frontBlock == first && tailBlock == last && largestBlockSize == largest
          && contents == Flat(parts)
      ensures this.ring == ring && this.parts == parts && this.repr == repr
    {
      hide Flat, Apart, Parts, Chained, PartAt, Block.Ok, Block.Elems;
      frontBlock, tailBlock, largestBlockSize := first, last, largest;
      this.ring, this.parts, this.repr, contents := ring, parts, repr, Flat(parts);
    }

    /** The next block's tail is loaded into its shadow; the block is not empty. */
    method LookNext()
      requires Valid() && 1 < |parts| && frontBlock.next == ring[1]
      modifies repr
      ensures Valid() && ring[1].front != ring[1].localTail && frontBlock.next == ring[1]
    {
      hide Flat, Apart;
      var nb := frontBlock.next;
      nb.ElemsLength();
      assert parts[1] != [] && nb.Elems() == PartAt(parts, 1);
      hide Parts;
      nb.localTail := nb.tail;
      assert Chained(ring) by { hide Holding; }
      assert Holding(ring, parts, -1) by { hide Chained; }
      hide Chained, Holding;
    }

    /** try_dequeue */
    method TryDequeue() returns (r: Option<T>)
      requires Valid()
      modifies this, repr
      ensures Valid() && repr == old(repr)
      ensures r == (if old(contents) == [] then None else Some(old(contents)[0]))
      ensures contents == (if old(contents) == [] then [] else old(contents)[1..])
    {
      var some := LookFront();
      if some {
        var x := TakeHere();
        r := Some(x);
      } else if frontBlock != tailBlock {
        AdvanceFront();
        var x := TakeHere();
        r := Some(x);
      } else {
        OnlyFront();
        r := None;
      }
    }

    /** With the front block empty and last in use, the queue is empty. */
    lemma OnlyFront()
      requires Valid() && parts[0] == [] && frontBlock == tailBlock
      ensures contents == []
    {
      Same(ring, 0, |parts| - 1);
      assert parts[1..] == [];
      assert Flat(parts) == parts[0] + Flat(parts[1..]);
    }

    /** With the front block empty but not last in use, the next one holds the first element. */
    lemma SecondFirst()
      requires Valid() && parts[0] == [] && frontBlock != tailBlock
      ensures 1 < |parts| && frontBlock.next == ring[1] && parts[1] != [] && contents != []
          && contents[0] == parts[1][0]
      ensures contents == Flat(parts[1..])
    {
      assert contents == Flat(parts[1..]);
      FlatFirst(parts[1..]);
    }

    /** Whether the front block holds anything. */
    method LookFront() returns (r: bool)
      requires Valid()
      modifies frontBlock`localTail
      ensures Valid() && (r <==> parts[0] != []) && (r ==> frontBlock.front != frontBlock.localTail)
    {
      hide Flat, Apart;
      assert frontBlock.Elems() == PartAt(parts, 0);
      r := frontBlock.HasFront();
    }

    /** pop */
    method Pop() returns (r: bool)
      requires Valid()
      modifies this, repr
      ensures Valid() && repr == old(repr) && (r <==> old(contents) != [])
      ensures contents == (if old(contents) == [] then [] else old(contents)[1..])
    {
      var x := TryDequeue();
      r := x.Some?;
    }

    /** peek: the element try_dequeue would take. */
    method Peek() returns (r: Option<T>)
      requires Valid()
      modifies repr
      ensures Valid() && r == if contents == [] then None else Some(contents[0])
    {
      var some := LookFront();
      if some {
        FlatFirst(parts);
        hide Flat;
        assert frontBlock.Elems() == PartAt(parts, 0);
        r := Some(frontBlock.data[frontBlock.front]);
      } else if frontBlock != tailBlock {
        SecondFirst();
        hide Flat;
        LookNext();
        assert ring[1].Elems() == PartAt(parts, 1);
        r := Some(frontBlock.next.data[frontBlock.next.front]);
      } else {
        OnlyFront();
        r := None;
      }
    }

    // ---- adding -----------------------------------------------------------------------------------

    /** Whether the tail block has room. */
    method LookTail() returns (r: bool)
      requires Valid()
      modifies tailBlock`localFront
      ensures Valid() && (r <==> |parts[|parts| - 1]| < tailBlock.size - 1)
      ensures r ==> Succ(tailBlock.tail, tailBlock.size) != tailBlock.localFront
    {
      hide Flat;
      assert tailBlock.Elems() == PartAt(parts, |parts| - 1);
      r := tailBlock.HasRoom();
    }

    method PutHere(x: T)
      requires Valid() && Succ(tailBlock.tail, tailBlock.size) != tailBlock.localFront
      modifies this, tailBlock`tail, tailBlock.data
      ensures Valid() && contents == old(contents) + [x] && repr == old(repr)
      ensures ring == old(ring) && largestBlockSize == old(largestBlockSize)
    {
      FlatLast(parts, x);
      hide Flat, Parts;
      ghost var n := |parts| - 1;
      tailBlock.PutTail(x);
      assert Holding(ring, parts, n);
      HoldingNow(ring, parts, n, parts[n] + [x]);
      Become(frontBlock, tailBlock, largestBlockSize, ring, parts[n := parts[n] + [x]], repr);
    }

    /** The block after the full tail block is not the front block: it is empty, and becomes the tail block. */
    method UseSpare(x: T)
      requires Valid() && |parts| < |ring| && tailBlock.next == ring[|parts|]
      modifies this, repr
      ensures Valid() && contents == old(contents) + [x] && repr == old(repr)
      ensures ring == old(ring) && largestBlockSize == old(largestBlockSize)
    {
      hide Flat, Apart, Chained, PartAt, Block.Ok, Block.Elems;
      FlatAppend(parts, [x]);
      ghost var n := |parts|;
      var nb := tailBlock.next;
      FillSpare(nb, x);
      hide Holding, Parts;
      HoldingNow(ring, parts, n, [x]);
      Become(frontBlock, nb, largestBlockSize, ring, parts + [[x]], repr);
    }

    /** The spare block's front is loaded into its shadow, and the element put behind it. */
    method FillSpare(nb: Block<T>, x: T)
      requires Valid() && |parts| < |ring| && nb == ring[|parts|]
      modifies repr
      ensures Owns() && Chained(ring) && Holding(ring, parts, |parts|) && nb.Ok() && nb.Elems() == [x]
    {
      hide Flat, Parts;
      nb.ElemsLength();
      assert nb.Elems() == PartAt(parts, |parts|) == [];
      nb.localFront := nb.front;
      nb.PutTail(x);
    }

    /** No spare block: a new one goes between the tail block and the front block. */
    method AddBlock(x: T, size: nat, junk: T)
      requires Valid() && |parts| == |ring| && 2 <= size
      modifies this, tailBlock`next
      ensures Valid() && contents == old(contents) + [x] && fresh(repr - old(repr)) && old(repr) <= repr
      ensures ring == old(ring) + [tailBlock] && fresh(tailBlock) && tailBlock.size == largestBlockSize == size
    {
      hide Flat, Apart, PartAt, Block.Ok, Block.Elems;
      FlatAppend(parts, [x]);
      ghost var n := |parts|;
      assert tailBlock.next == ring[0] == frontBlock && 0 < n;
      var nb := NewTail(x, size, junk);
      hide Holding, Chained;
      LinkIn(nb);
      HoldingNow(ring + [nb], parts, n, [x]);
      hide Parts;
      Become(frontBlock, nb, size, ring + [nb], parts + [[x]], repr + {nb, nb.data});
    }

    /** The new block points where the tail block did, and the tail block at the new one. */
    method LinkIn(nb: Block<T>)
      requires Valid() && |parts| == |ring| && nb !in repr && nb.data !in repr && tailBlock.next == ring[0]
      modifies tailBlock`next, nb`next
      ensures Apart(ring + [nb]) && Chained(ring + [nb]) && Holding(ring + [nb], parts, |ring|)
          && Parts(parts, |ring| + 1)
      ensures nb.Ok() == old(nb.Ok()) && (nb.Ok() ==> nb.Elems() == old(nb.Elems()))
    {
      hide Flat, Apart, Parts;
      ghost var was := ring;
      ApartMore(was, nb);
      PartsMore(parts, |was|);
      OnlyLast(was);
      nb.next := tailBlock.next;
      tailBlock.next := nb;
      assert Chained(was + [nb]) by { hide Holding; ChainedMore(was, nb); }
      assert Holding(was, parts, -1) by { hide Chained; }
      assert Holding(was + [nb], parts, |was|) by { hide Chained; HoldingMore(was, nb, parts); }
      hide Holding, Chained;
    }

    /** inner_enqueue: fails only when the tail block is full, no block is spare, and none may or can be added. */
    method InnerEnqueue(x: T, canAlloc: bool, mallocOk: bool, junk: T) returns (ok: bool)
      requires Valid()
      modifies this, repr
      ensures Valid() && fresh(repr - old(repr)) && contents == if ok then old(contents) + [x] else old(contents)
      ensures !ok ==> !(canAlloc && mallocOk) && |parts| == |ring| && |parts[|parts| - 1]| >= tailBlock.size - 1
      ensures
        var needed := old(|parts| == |ring| && |parts[|parts| - 1]| >= tailBlock.size - 1);
        if ok && needed then
          && ring == old(ring) + [tailBlock] && fresh(tailBlock)
          && tailBlock.size == largestBlockSize == NextSize(old(largestBlockSize))
        else ring == old(ring) && largestBlockSize == old(largestBlockSize)
    {
      var room := LookTail();
      ok := true;
      SpareIffNext();
      if room {
        PutHere(x);
      } else if tailBlock.next != frontBlock {
        UseSpare(x);
      } else if canAlloc && mallocOk {
        AddBlock(x, NextSize(largestBlockSize), junk);
      } else {
        ok := false;
      }
    }

    /** The tail block is followed by the front block exactly when every block is in use. */
    lemma SpareIffNext()
      requires Valid()
      ensures tailBlock.next == frontBlock <==> |parts| == |ring|
      ensures |parts| < |ring| ==> tailBlock.next == ring[|parts|]
    {
      hide Flat, Holding;
      var n := |parts|;
      if n < |ring| {
        assert ring[n - 1].next == ring[n] && ring[n] != ring[0];
      } else {
        assert ring[n - 1].next == ring[0];
      }
    }

    // ---- counting ---------------------------------------------------------------------------------

    /** size_approx, exact when no other thread is at work: once round the ring. */
    method SizeApprox() returns (n: nat)
      requires Valid()
      ensures n == |contents|
    {
      n := 0;
      var block := frontBlock;
      ghost var i := 0;
      while true
        invariant 0 <= i < |ring| && block == ring[i] && n == Held(parts, i)
        decreases |ring| - i
      {
        block.ElemsLength();
        assert block.Elems() == PartAt(parts, i);
        n := n + if block.front <= block.tail then block.tail - block.front else block.tail + block.size - block.front;
        i := i + 1;
        NextInRing(i);
        block := block.next;
        if block == frontBlock { break; }
      }
      HeldAll(parts, i);
    }

    lemma NextInRing(i: nat)
      requires Valid() && 0 < i <= |ring|
      ensures ring[i - 1].next == ring[if i < |ring| then i else 0]
      ensures ring[i - 1].next == frontBlock <==> i == |ring|
      ensures |parts| <= |ring|
    {
      hide Flat, Holding;
      assert i < |ring| ==> ring[i] != ring[0];
    }
  }

  /** What the first i parts hold together. */
  ghost function Held<T>(ps: seq<seq<T>>, i: nat): nat {
    if i == 0 then 0 else Held(ps, i - 1) + |PartAt(ps, i - 1)|
  }

  lemma {:induction false} HeldAll<T>(ps: seq<seq<T>>, i: nat)
    ensures Held(ps, i) == |Flat(ps[..if i < |ps| then i else |ps|])|
    ensures |ps| <= i ==> Held(ps, i) == |Flat(ps)|
  {
    if i != 0 {
      HeldAll(ps, i - 1);
      if i <= |ps| {
        FlatAppend(ps[..i - 1], ps[i - 1]);
        assert ps[..i] == ps[..i - 1] + [ps[i - 1]];
      }
    }
    assert ps[..|ps|] == ps;
  }

  /** A new block with its first element. */
  method NewTail<T>(x: T, size: nat, junk: T) returns (nb: Block<T>)
    requires 2 <= size
    ensures fresh(nb) && fresh(nb.data) && nb.Ok() && nb.Elems() == [x] && nb.size == size
  {
    nb := new Block<T>(size, junk);
    nb.data[0] := x;
    nb.tail, nb.localTail := 1, 1;
  }

  ghost predicate EqualBlocks<T>(ring: seq<Block<T>>, n: nat, size: nat) {
    |ring| == n && forall i :: 0 <= i < n ==> ring[i].size == size
  }

  /** The constructor's loop: each new block goes between the last one and the first. */
  method MakeRing<T>(n: nat, size: nat, junk: T)
                     returns (first: Block<T>, ghost ring: seq<Block<T>>, ghost repr: set<object>)
    requires 1 <= n && 2 <= size
    ensures EqualBlocks(ring, n, size) && ring[0] == first && fresh(repr)
    ensures forall i :: 0 <= i < n ==> ring[i] in repr && ring[i].data in repr
    ensures Apart(ring) && Chained(ring) && forall i :: 0 <= i < n ==> ring[i].Empty()
  {
    first := new Block<T>(size, junk);
    first.next := first;
    ring, repr := [first], {first, first.data};
    var last := first;
    var i := 1;
    while i < n
      invariant 1 <= i <= n && |ring| == i && ring[0] == first && ring[i - 1] == last && last.next == first
      invariant fresh(repr) && forall k :: 0 <= k < i ==> ring[k] in repr && ring[k].data in repr
      invariant Apart(ring)
      invariant forall k :: 0 <= k < i ==> ring[k].size == size && ring[k].Empty()
      invariant forall k, l :: 0 <= k < i && 0 <= l < i && l == k + 1 ==> ring[k].next == ring[l]
    {
      var block := new Block<T>(size, junk);
      last.next := block;
      last := block;
      block.next := first;
      ring, repr := ring + [block], repr + {block, block.data};
      i := i + 1;
    }
  }
}
