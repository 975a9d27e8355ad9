/** The sample re-blocker of SDRThread (cubic/sdr/SoapySDRThread.cpp, readStream): device-sized chunks cut into
    batches of a fixed size through an overflow buffer. */
module SdrStream {

  /** A complex sample; the device delivers it as two floats, which `iq_swap` exchanges. */
  datatype Sample = Sample(re: int, im: int)

  /** One call of the device's readStream: an error code, 0 for a blocked read, or some samples. */
  datatype Read = Failed(code: int) | Got(floats: seq<int>)

  function Count(r: Read): nat { if r.Got? then |r.floats| / 2 else 0 }

  /** What the device's call returns: the number of samples, 0 when it blocks, or an error. */
  function Code(r: Read): int { if r.Failed? then r.code else Count(r) }

  function SampleAt(floats: seq<int>, i: nat, swap: bool): Sample
    requires 2 * i + 1 < |floats|
  {
    if swap then Sample(floats[2 * i + 1], floats[2 * i]) else Sample(floats[2 * i], floats[2 * i + 1])
  }

  /** Samples from .. from + n - 1 of a chunk. */
  function Part(floats: seq<int>, from: nat, n: nat, swap: bool): seq<Sample>
    requires 2 * (from + n) <= |floats|
  {
    seq(n, i requires 0 <= i < n => SampleAt(floats, from + i, swap))
  }

  function Samples(r: Read, swap: bool): seq<Sample> {
    if r.Got? then Part(r.floats, 0, |r.floats| / 2, swap) else []
  }

  lemma PartSplit(floats: seq<int>, n: nat, m: nat, swap: bool)
    requires 2 * (n + m) <= |floats|
    ensures Part(floats, 0, n, swap) + Part(floats, n, m, swap) == Part(floats, 0, n + m, swap)
  {
  }

  /** Samples as the device delivers them. */
  function Floats(ss: seq<Sample>): seq<int> {
    if ss == [] then [] else Floats(ss[..|ss| - 1]) + [ss[|ss| - 1].re, ss[|ss| - 1].im]
  }

  /** Nothing of a chunk is lost: its samples, written out again, are its floats, the real part before the imaginary
      one; and `iq_swap` exchanges the two parts of every sample and does nothing else. */
  lemma {:induction false} PartIsAll(floats: seq<int>, n: nat)
    requires 2 * n <= |floats|
    ensures Floats(Part(floats, 0, n, false)) == floats[..2 * n]
    ensures forall i :: 0 <= i < n ==>
      Part(floats, 0, n, true)[i] == Sample(Part(floats, 0, n, false)[i].im, Part(floats, 0, n, false)[i].re)
  {
    if n != 0 {
      var part := Part(floats, 0, n, false);
      assert part[..n - 1] == Part(floats, 0, n - 1, false);
      PartIsAll(floats, n - 1);
    }
  }

  /** What happened between two rate changes: reads first .. last - 1 were made, each asking for `mtu` samples; the
      samples put in batches, and those still held over when the rate changed again. */
  datatype Stretch = Stretch(mtu: nat, first: nat, last: nat, built: seq<Sample>, dropped: seq<Sample>)

  /** Writes samples from .. from + n - 1 of a chunk at position `at`. */
  method CopyIn(dst: array<Sample>, at: nat, floats: seq<int>, from: nat, n: nat, swap: bool)
    requires at + n <= dst.Length && 2 * (from + n) <= |floats|
    modifies dst
    ensures dst[..at] == old(dst[..at]) && dst[at..at + n] == Part(floats, from, n, swap)
  {
    for i := 0 to n
      invariant dst[..at] == old(dst[..at])
      invariant dst[at..at + i] == Part(floats, from, i, swap)
    {
      ghost var done := dst[at..at + i];
      dst[at + i] := SampleAt(floats, from + i, swap);
      assert dst[at..at + i + 1] == done + [dst[at + i]];
    }
  }

  /** assureBufferMinSize */
  method AtLeast(buffer: array<Sample>, n: nat) returns (r: array<Sample>)
    ensures n <= r.Length && (r == buffer || fresh(r))
    ensures buffer.Length <= r.Length && r[..buffer.Length] == old(buffer[..])
    ensures buffer.Length >= n ==> r == buffer
  {
    if n <= buffer.Length {
      r := buffer;
      assert r[..buffer.Length] == buffer[..];
    } else {
      r := new Sample[n](i requires 0 <= i < n reads buffer => if i < buffer.Length then buffer[i] else Sample(0, 0));
    }
  }

  /** Moves `len` samples from position n to the front. */
  method Shift(buffer: array<Sample>, n: nat, len: nat)
    requires n + len <= buffer.Length
    modifies buffer
    ensures buffer[..len] == old(buffer[n..n + len])
  {
    for i := 0 to len
      invariant buffer[..i] == old(buffer[n..n + i])
      invariant forall k :: n + i <= k < n + len ==> buffer[k] == old(buffer[k])
    {
      buffer[i] := buffer[n + i];
    }
  }

  class SdrThread {
    /** The device's answer to each read, which depends on how many samples it asks for; what `iq_swap` says at
        each read; and what the stop flag says before it. */
    const device: (nat, nat) -> Read
    const swapAt: nat -> bool
    const stopAt: nat -> bool
    var readNum: nat

    var overflow: array<Sample>
    var numOverflow: nat
    var mtu: nat
    var numElems: nat

    /** Since the last rate change: all samples put in batches, and the number of the first read. Before it: one
        stretch for each earlier rate. */
    ghost var built: seq<Sample>
    ghost var since: nat
    ghost var past: seq<Stretch>

    /** The device returns no more than it was asked for. */
    ghost predicate Honest() { forall k: nat, m: nat :: Count(device(k, m)) <= m }

    /** All samples the device returned in its reads a .. b - 1, each asking for m, in order. */
    ghost function Received(m: nat, a: nat, b: nat): seq<Sample>
      requires a <= b
    {
      if a == b then [] else Received(m, a, b - 1) + Samples(device(b - 1, m), swapAt(b - 1))
    }

    /** The stretches follow one another up to read `until`, and in each of them what was built, then what was
        dropped at its end, is what the device returned: fewer samples are dropped than one read asks for. */
    ghost predicate PastOk(past: seq<Stretch>, until: nat) {
      if past == [] then until == 0
      else
        var p := past[|past| - 1];
        && p.first <= p.last == until && |p.dropped| < p.mtu
        && p.built + p.dropped == Received(p.mtu, p.first, p.last)
        && PastOk(past[..|past| - 1], p.first)
    }

    /** Conservation: what was built, then what is held over, is what the device returned, in order. */
    ghost predicate Valid()
      reads this, overflow
    {
      && numOverflow <= overflow.Length && numOverflow < mtu && since <= readNum && Honest()
      && built + overflow[..numOverflow] == Received(mtu, since, readNum) && PastOk(past, since)
    }

    constructor (device: (nat, nat) -> Read, stopAt: nat -> bool, swapAt: nat -> bool, mtu: nat, numElems: nat)
      requires 0 < mtu && forall k: nat, m: nat :: Count(device(k, m)) <= m
      ensures Valid() && numOverflow == 0 && past == [] && fresh(overflow) && this.mtu == mtu
          && this.numElems == numElems
    {
      this.device, this.stopAt, this.swapAt, this.mtu, this.numElems := device, stopAt, swapAt, mtu, numElems;
      overflow := new Sample[mtu](_ => Sample(0, 0));
      numOverflow, readNum, built, since, past := 0, 0, [], 0, [];
    }

    /** The buffer reset of updateSettings when the rate has changed: what is held over is dropped. */
    method ChangeRate(streamMtu: nat, elems: nat)
      requires Valid() && 0 < elems
      modifies this
      ensures Valid() && numOverflow == 0 && built == [] && since == readNum == old(readNum)
      ensures past == old(past + [Stretch(mtu, since, readNum, built, overflow[..numOverflow])])
      ensures numElems == elems && mtu == (if streamMtu == 0 then elems else streamMtu) && fresh(overflow)
    {
      ghost var last := Stretch(mtu, since, readNum, built, overflow[..numOverflow]);
      assert (past + [last])[..|past|] == past;
      past := past + [last];
      numElems := elems;
      mtu := if streamMtu == 0 then elems else streamMtu;
      overflow := new Sample[mtu](i => Sample(0, 0));
      numOverflow := 0;
      built, since := [], readNum;
    }

    /** What is left of the held samples moves to the front. */
    method ShiftHeld(ghost held: seq<Sample>, n: nat)
      requires n + numOverflow == |held| <= overflow.Length && overflow[..|held|] == held
      modifies overflow
      ensures overflow[..numOverflow] == held[n..]
    {
      assert overflow[n..|held|] == held[n..];
      Shift(overflow, n, numOverflow);
    }

    /** Step 1 of readStream: what was held over goes first, and what is left of it moves to the front. */
    method TakeOverflow(data: array<Sample>) returns (n: nat)
      requires Valid() && data != overflow && numElems <= data.Length
      modifies this`numOverflow, overflow, data
      ensures n <= numElems && n <= old(numOverflow) && numOverflow == old(numOverflow) - n
          && (numOverflow == 0 || n == numElems)
      ensures data[..n] + overflow[..numOverflow] == old(overflow[..numOverflow])
    {
      hide Received, PastOk;
      n := 0;
      if numOverflow > 0 {
        n := if numOverflow < numElems then numOverflow else numElems;
        ghost var held := overflow[..numOverflow];
        for i := 0 to n
          invariant data[..i] == overflow[..i]
          modifies data
        {
          data[i] := overflow[i];
        }
        assert data[..n] == held[..n] && overflow[..numOverflow] == held;
        numOverflow := numOverflow - n;
        if numOverflow > 0 { ShiftHeld(held, n); }
        assert held == held[..n] + held[n..];
      }
    }

    /** Read k is called for, in a batch of `size` that starts with n0 samples held over and with read `first`: nobody
        has asked to stop, the batch lacks samples, and the read before it, if there was one, has brought some. */
    ghost predicate CalledFor(m: nat, size: nat, n0: nat, first: nat, k: nat)
      requires first <= k
    {
      !stopAt(k) && n0 + |Received(m, first, k)| < size && (first < k ==> Count(device(k - 1, m)) != 0)
    }

    /** Every one of the reads first .. last - 1 is. */
    ghost predicate AllCalledFor(m: nat, size: nat, n0: nat, first: nat, last: nat) {
      forall k :: first <= k < last ==> CalledFor(m, size, n0, first, k)
    }

    lemma OneMoreRead(m: nat, size: nat, n0: nat, first: nat, k: nat)
      requires first <= k && n0 + |Received(m, first, k)| < size && !stopAt(k)
      requires (first == k || Count(device(k - 1, m)) != 0) && AllCalledFor(m, size, n0, first, k)
      ensures AllCalledFor(m, size, n0, first, k + 1)
    {
      hide Received;
      assert CalledFor(m, size, n0, first, k);
    }

    lemma SameStart(m: nat, size: nat, n: nat, n': nat, first: nat, last: nat)
      requires AllCalledFor(m, size, n, first, last) && (n < size ==> n == n')
      ensures AllCalledFor(m, size, n', first, last)
    {
      forall k | first <= k < last ensures CalledFor(m, size, n', first, k) {
        assert CalledFor(m, size, n, first, k);
      }
    }

    /** Step 2: reads until the batch is full, a read fails or the thread is stopping. */
    method Fill(data: array<Sample>, n0: nat) returns (n: nat, code: int)
      requires n0 <= numElems == data.Length && data != overflow && numOverflow <= overflow.Length && numOverflow < mtu
      requires (n0 < numElems ==> numOverflow == 0) && Honest()
      modifies this`overflow, this`numOverflow, this`readNum, overflow, data
      ensures n <= numElems && numOverflow <= overflow.Length && numOverflow < mtu && old(readNum) <= readNum
      ensures overflow == old(overflow) || fresh(overflow)
      ensures data[..n] + overflow[..numOverflow] ==
        old(data[..n0] + overflow[..numOverflow]) + Received(mtu, old(readNum), readNum)
      ensures n == numElems || stopAt(readNum) || (old(readNum) < readNum && Count(device(readNum - 1, mtu)) == 0)
      ensures AllCalledFor(mtu, numElems, n0, old(readNum), readNum)
      ensures code == if readNum == old(readNum) then 0 else Code(device(readNum - 1, mtu))
    {
      ghost var first, held := readNum, data[..n0] + overflow[..numOverflow];
      assert AllCalledFor(mtu, numElems, n0, first, first);
      hide Received, Samples, AllCalledFor;
      n, code := n0, 0;
      ReceivedNone(first, held);
      while n < numElems && !stopAt(readNum)
        invariant numOverflow <= overflow.Length && numOverflow < mtu && n <= numElems == data.Length
            && first <= readNum
        invariant data != overflow && (overflow == old(overflow) || fresh(overflow))
        invariant n < numElems ==> numOverflow == 0
        invariant code == if readNum == first then 0 else Code(device(readNum - 1, mtu))
        invariant data[..n] + overflow[..numOverflow] == held + Received(mtu, first, readNum)
        invariant first == readNum || Count(device(readNum - 1, mtu)) != 0
        invariant AllCalledFor(mtu, numElems, n0, first, readNum)
        decreases numElems - n
      {
        assert data[..n] + overflow[..numOverflow] == data[..n];
        n, code := ReadOnce(data, n, held, n0, first);
        if Count(device(readNum - 1, mtu)) == 0 { break; }
      }
    }

    /** The body of the reading loop. */
    method ReadOnce(data: array<Sample>, n: nat, ghost held: seq<Sample>, ghost n0: nat, ghost first: nat)
                    returns (m: nat, code: int)
      requires n < numElems == data.Length && data != overflow && numOverflow == 0 && first <= readNum && 0 < mtu
      requires n0 <= |held| && Honest() && !stopAt(readNum)
      requires data[..n] == held + Received(mtu, first, readNum) && AllCalledFor(mtu, numElems, n0, first, readNum)
      requires first == readNum || Count(device(readNum - 1, mtu)) != 0
      modifies this`overflow, this`numOverflow, this`readNum, overflow, data
      ensures readNum == old(readNum) + 1 && AllCalledFor(mtu, numElems, n0, first, readNum)
      ensures n <= m <= numElems && numOverflow <= overflow.Length && numOverflow < mtu
          && (m < numElems ==> numOverflow == 0) && (Count(device(readNum - 1, mtu)) != 0 ==> n < m)
      ensures overflow == old(overflow) || fresh(overflow)
      ensures data[..m] + overflow[..numOverflow] == held + Received(mtu, first, readNum)
      ensures code == Code(device(readNum - 1, mtu))
    {
      hide Received, Samples, AllCalledFor;
      assert |data[..n]| == n;
      OneMoreRead(mtu, numElems, n0, first, readNum);
      var r := device(readNum, mtu);
      code := Code(r);
      ghost var got := data[..n];
      m := Take(data, n, r, swapAt(readNum));
      readNum := readNum + 1;
      Append(got, held, first, readNum, data[..m] + overflow[..numOverflow]);
    }

    /** One more read behind what was received. */
    lemma Append(got: seq<Sample>, held: seq<Sample>, a: nat, b: nat, now: seq<Sample>)
      requires a < b && got + [] == held + Received(mtu, a, b - 1)
          && now == got + Samples(device(b - 1, mtu), swapAt(b - 1))
      ensures now == held + Received(mtu, a, b)
    {
      ReceivedStep(a, b);
      hide Received, Samples;
      Chain(got, held, Received(mtu, a, b - 1), Samples(device(b - 1, mtu), swapAt(b - 1)));
    }

    lemma ReceivedNone(a: nat, held: seq<Sample>)
      ensures held + Received(mtu, a, a) == held
    {
    }

    lemma ReceivedStep(a: nat, b: nat)
      requires a < b
      ensures Received(mtu, a, b) == Received(mtu, a, b - 1) + Samples(device(b - 1, mtu), swapAt(b - 1))
    {
      hide Samples;
    }

    lemma {:induction false} ReceivedSplit(m: nat, a: nat, b: nat, c: nat)
      requires a <= b <= c
      ensures Received(m, a, c) == Received(m, a, b) + Received(m, b, c)
    {
      if b < c { ReceivedSplit(m, a, b, c - 1); }
    }

    /** Every stretch before the last rate change: it starts where the one before it ended, and loses none but the
        samples held over at its end. */
    lemma {:induction false} EachStretch(past: seq<Stretch>, until: nat, i: nat)
      requires PastOk(past, until) && i < |past|
      ensures var p := past[i];
        && p.first == (if i == 0 then 0 else past[i - 1].last) && p.first <= p.last <= until
        && |p.dropped| < p.mtu && p.built + p.dropped == Received(p.mtu, p.first, p.last)
    {
      hide Received;
      var n := |past| - 1;
      if i < n {
        EachStretch(past[..n], past[n].first, i);
      }
    }

    /** Builds one batch. `pushable` says whether the output queue takes it; a batch it does not take is dropped.
        The code is that of the last read, -31 when nothing was posted, -32 when posting failed. */
    method ReadStream(queueFull: bool, pushable: bool, stoppingNow: bool)
                      returns (code: int, batch: seq<Sample>, pushed: bool)
      requires Valid()
      modifies this, overflow
      ensures Valid() && built == old(built) + batch && since == old(since) && past == old(past)
      ensures mtu == old(mtu) && numElems == old(numElems)
      ensures old(readNum) <= readNum && (overflow == old(overflow) || fresh(overflow))
      ensures batch + overflow[..numOverflow] == old(overflow[..numOverflow]) + Received(mtu, old(readNum), readNum)
      ensures |batch| <= numElems
      ensures |batch| == numElems || stopAt(readNum) || (old(readNum) < readNum && Count(device(readNum - 1, mtu)) == 0)
      ensures AllCalledFor(mtu, numElems, old(numOverflow), old(readNum), readNum)
      ensures pushed <==> batch != [] && !stoppingNow && !queueFull && pushable
      ensures code == if batch == [] || stoppingNow || queueFull then -31 else if !pushable then -32
                      else if readNum == old(readNum) then 0 else Code(device(readNum - 1, mtu))
    {
      hide Received, PastOk;
      var data := new Sample[numElems](_ => Sample(0, 0));
      ghost var first, held := readNum, overflow[..numOverflow];
      var n := TakeOverflow(data);
      ghost var n0 := n;
      n, code := Fill(data, n);
      SameStart(mtu, numElems, n0, |held|, first, readNum);
      hide AllCalledFor;
      batch := data[..n];
      Conserved(built, held, since, first, readNum, batch, overflow[..numOverflow]);
      built := built + batch;
      pushed := n > 0 && !stoppingNow && !queueFull && pushable;
      if !(n > 0 && !stoppingNow && !queueFull) { code := -31; } else if !pushable { code := -32; }
    }

    lemma Conserved(built: seq<Sample>, held: seq<Sample>, a: nat, b: nat, c: nat, batch: seq<Sample>,
                    rest: seq<Sample>)
      requires a <= b <= c && built + held == Received(mtu, a, b)
      requires batch + rest == held + Received(mtu, b, c)
      ensures (built + batch) + rest == Received(mtu, a, c)
    {
      hide Received;
      ReceivedSplit(mtu, a, b, c);
      Joined(built, batch, rest);
      Joined(built, held, Received(mtu, b, c));
    }

    /** What a read brings: as much of the chunk as the batch still needs, the rest held over. */
    method Take(data: array<Sample>, n: nat, r: Read, swap: bool) returns (m: nat)
      requires n < data.Length == numElems && numOverflow == 0 && data != overflow && Count(r) <= mtu && 0 < mtu
      modifies this`overflow, this`numOverflow, overflow, data
      ensures n <= m <= numElems && numOverflow <= overflow.Length && numOverflow < mtu
          && (m < numElems ==> numOverflow == 0)
      ensures overflow == old(overflow) || fresh(overflow)
      ensures data[..m] + overflow[..numOverflow] == old(data[..n]) + Samples(r, swap)
      ensures Count(r) != 0 ==> n < m
    {
      NoSamples(r, swap);
      m := n;
      ghost var was := data[..n];
      hide Part, SampleAt;
      if Count(r) != 0 {
        if n + Count(r) > numElems {
          TakeOver(data, n, r.floats, swap);
          m := numElems;
        } else {
          CopyIn(data, n, r.floats, 0, Count(r), swap);
          m := n + Count(r);
          assert data[..m] == was + Part(r.floats, 0, Count(r), swap);
        }
      }
      assert m < numElems || numOverflow == 0 ==> data[..m] + overflow[..numOverflow] == data[..m];
    }

    /** A chunk that goes beyond the batch: the rest is held over. */
    method TakeOver(data: array<Sample>, n: nat, floats: seq<int>, swap: bool)
      requires n < data.Length == numElems && numOverflow == 0 && data != overflow && |floats| / 2 <= mtu
      requires n + |floats| / 2 > numElems
      modifies this`overflow, this`numOverflow, overflow, data
      ensures numOverflow <= overflow.Length && numOverflow < mtu && (overflow == old(overflow) || fresh(overflow))
      ensures data[..] + overflow[..numOverflow] == old(data[..n]) + Part(floats, 0, |floats| / 2, swap)
    {
      hide Part, SampleAt;
      ghost var was := data[..n];
      var got, wanted := |floats| / 2, numElems - n;
      CopyIn(data, n, floats, 0, wanted, swap);
      overflow := AtLeast(overflow, numOverflow + got - wanted);
      CopyIn(overflow, numOverflow, floats, wanted, got - wanted, swap);
      numOverflow := numOverflow + got - wanted;
      PartSplit(floats, wanted, got - wanted, swap);
      assert data[..] == was + Part(floats, 0, wanted, swap);
      assert overflow[..numOverflow] == Part(floats, wanted, got - wanted, swap);
      Joined(was, Part(floats, 0, wanted, swap), Part(floats, wanted, got - wanted, swap));
    }

  }

  lemma NoSamples(r: Read, swap: bool)
    ensures Count(r) == 0 ==> Samples(r, swap) == []
  {
  }

  lemma Joined(a: seq<Sample>, b: seq<Sample>, c: seq<Sample>)
    ensures (a + b) + c == a + (b + c)
  {
  }

  lemma Chain(got: seq<Sample>, held: seq<Sample>, received: seq<Sample>, more: seq<Sample>)
    requires got + [] == held + received
    ensures got + more == held + (received + more)
  {
    assert got + [] == got;
  }
}
