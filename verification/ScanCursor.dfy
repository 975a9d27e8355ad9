/** The cursor of scan/SystemList.cpp: getNextEntry walks the bins for ever, a retune dummy before the entries
    of each bin, passing over what is locked out. */
module ScanCursor {
  import opened Modulo
  import opened MergeSort
  import opened Binning

  /** What the walk comes to: the dummy of bin b, or entry k of bin b. */
  datatype Slot = DummySlot(b: nat) | EntrySlot(b: nat, k: nat)

  /** What getNextEntry answers with. */
  datatype Found = Dummy(center: int) | Real(e: Entry)

  // ---- one round of the walk ----------------------------------------------------------------------

  function BinSlots(b: nat, n: nat): seq<Slot> { [DummySlot(b)] + seq(n, k requires 0 <= k < n => EntrySlot(b, k)) }

  /** One round: for each bin in order its dummy, then its entries in order. */
  function Round(bins: seq<Bin>, n: nat): seq<Slot>
    requires n <= |bins|
  {
    if n == 0 then [] else Round(bins, n - 1) + BinSlots(n - 1, |bins[n - 1].entries|)
  }

  function Start(bins: seq<Bin>, b: nat): nat
    requires b <= |bins|
  {
    if b == 0 then 0 else Start(bins, b - 1) + 1 + |bins[b - 1].entries|
  }

  lemma {:induction false} RoundLength(bins: seq<Bin>, n: nat)
    requires n <= |bins|
    ensures |Round(bins, n)| == Start(bins, n)
  {
    if n != 0 { RoundLength(bins, n - 1); }
  }

  /** Bin b's slots are at Start(b) in the round. */
  lemma {:induction false} RoundAt(bins: seq<Bin>, n: nat, b: nat, k: nat)
    requires b < n <= |bins| && k <= |bins[b].entries|
    ensures Start(bins, b) + k < Start(bins, n) == |Round(bins, n)|
    ensures Round(bins, n)[Start(bins, b) + k] == if k == 0 then DummySlot(b) else EntrySlot(b, k - 1)
  {
    RoundLength(bins, n);
    RoundLength(bins, n - 1);
    if b < n - 1 { RoundAt(bins, n - 1, b, k); }
  }

  /** Every position of the round is the slot of some bin. */
  lemma {:induction false} RoundHas(bins: seq<Bin>, n: nat, p: nat) returns (b: nat, k: nat)
    requires n <= |bins| && p < |Round(bins, n)|
    ensures b < n && k <= |bins[b].entries| && p == Start(bins, b) + k
  {
    RoundLength(bins, n);
    RoundLength(bins, n - 1);
    if p < |Round(bins, n - 1)| {
      b, k := RoundHas(bins, n - 1, p);
    } else {
      b, k := n - 1, p - Start(bins, n - 1);
    }
  }

  /** entriesLockedOut: by the count made when the bin was filled. */
  predicate Full(b: Bin) { b.locked == |b.entries| }

  /** The slot is answered with, not passed over. A dummy is locked out only with system 0, whose index it keeps. */
  predicate Emits(s: Slot, bins: seq<Bin>, systems: seq<System>)
    requires s.b < |bins| && systems != []
        && (s.EntrySlot? ==> s.k < |bins[s.b].entries| && InList(bins[s.b].entries[s.k], systems))
  {
    !Full(bins[s.b]) && if s.DummySlot? then !systems[0].locked else !Locked(bins[s.b].entries[s.k], systems)
  }

  ghost predicate Usable(bins: seq<Bin>, systems: seq<System>) {
    && bins != [] && systems != []
    && forall b :: 0 <= b < |bins| ==> bins[b].entries != [] && AllInList(bins[b].entries, systems)
  }

  ghost predicate Fits(s: Slot, bins: seq<Bin>, systems: seq<System>) {
    && s.b < |bins| && systems != []
    && (s.EntrySlot? ==> s.k < |bins[s.b].entries| && InList(bins[s.b].entries[s.k], systems))
  }

  lemma RoundFits(bins: seq<Bin>, systems: seq<System>, p: nat)
    requires Usable(bins, systems) && p < |Round(bins, |bins|)|
    ensures Fits(Round(bins, |bins|)[p], bins, systems)
  {
    var b, k := RoundHas(bins, |bins|, p);
    RoundAt(bins, |bins|, b, k);
  }

  /** Which positions of the round answer. */
  ghost function Answers(bins: seq<Bin>, systems: seq<System>): (r: seq<bool>)
    requires Usable(bins, systems)
    ensures |r| == |Round(bins, |bins|)|
  {
    seq(|Round(bins, |bins|)|, p requires 0 <= p < |Round(bins, |bins|)| =>
      RoundFits(bins, systems, p); Emits(Round(bins, |bins|)[p], bins, systems))
  }

  // ---- the next answering position, going round ---------------------------------------------------

  ghost function First(es: seq<bool>, p: nat): (r: nat)
    requires p <= |es|
    ensures p <= r <= |es| && (r < |es| ==> es[r]) && forall q :: p <= q < r ==> !es[q]
    decreases |es| - p
  {
    if p == |es| || es[p] then p else First(es, p + 1)
  }

  /** Position x of a round of n, one round too far at most. */
  function Wrap(x: nat, n: nat): (r: nat)
    requires x < 2 * n
    ensures r < n
  {
    if x < n then x else x - n
  }

  ghost predicate Some(es: seq<bool>) { exists p :: 0 <= p < |es| && es[p] }

  /** How far it is from position c to the next answering one, going round. */
  ghost function Ahead(es: seq<bool>, c: nat): (r: nat)
    requires c < |es| && Some(es)
    ensures r < |es|
  {
    FirstBound(es, c);
    First(es + es, c) - c
  }

  /** The next answering position. */
  ghost function Target(es: seq<bool>, c: nat): (r: nat)
    requires c < |es| && Some(es)
    ensures r < |es|
  {
    Wrap(c + Ahead(es, c), |es|)
  }

  lemma FirstBound(es: seq<bool>, c: nat)
    requires c < |es| && Some(es)
    ensures First(es + es, c) < c + |es|
  {
    var p :| 0 <= p < |es| && es[p];
    var q := if c <= p then p else p + |es|;
    assert (es + es)[q];
  }

  lemma AheadHere(es: seq<bool>, c: nat)
    requires c < |es| && Some(es)
    ensures Ahead(es, c) == 0 <==> es[c]
    ensures es[c] ==> Target(es, c) == c
    ensures es[Target(es, c)]
  {
    var ee := es + es;
    assert ee[c] == es[c];
    FirstBound(es, c);
    var r := First(ee, c);
    assert ee[r] == es[Wrap(r, |es|)];
  }

  lemma FirstIs(es: seq<bool>, p: nat, r: nat)
    requires p <= r < |es| && es[r] && forall q :: p <= q < r ==> !es[q]
    ensures First(es, p) == r
  {
  }

  /** Passing over a silent position brings the next answering one nearer, and leaves it the same. */
  lemma AheadStep(es: seq<bool>, c: nat)
    requires c < |es| && !es[c] && Some(es)
    ensures Ahead(es, Wrap(c + 1, |es|)) == Ahead(es, c) - 1
    ensures Target(es, Wrap(c + 1, |es|)) == Target(es, c)
  {
    var n, ee := |es|, es + es;
    AheadHere(es, c);
    FirstBound(es, c);
    var r := First(ee, c);
    if c + 1 < n {
      FirstIs(ee, c + 1, r);
    } else {
      assert ee[r] == es[r - n] == ee[r - n];
      forall q | 0 <= q < r - n ensures !ee[q] {
        assert ee[q + n] == es[q];
      }
      FirstIs(ee, 0, r - n);
    }
  }

  lemma {:induction false} AheadSkip(es: seq<bool>, c: nat, n: nat)
    requires c + n < |es| && Some(es) && forall q :: c <= q < c + n ==> !es[q]
    ensures Ahead(es, c + n) == Ahead(es, c) - n && Target(es, c + n) == Target(es, c)
  {
    if n != 0 {
      AheadSkip(es, c, n - 1);
      AheadStep(es, c + n - 1);
    }
  }

  // ---- the cursor -------------------------------------------------------------------------------

  /** The list with its cursor. `systems` holds the locks, which callers may change at any time. */
  class SystemList {
    var systems: seq<System>
    var bins: seq<Bin>
    var binNum: nat
    var entryNum: nat
    var retune: bool

    constructor (systems: seq<System>)
      ensures this.systems == systems && bins == [] && binNum == 0 && entryNum == 0 && retune
    {
      this.systems := systems;
      bins, binNum, entryNum, retune := [], 0, 0, true;
    }

    ghost predicate Valid()
      reads this
    {
      && Usable(bins, systems) && binNum < |bins| && entryNum < |bins[binNum].entries|
      && (retune ==> entryNum == 0) && (!retune ==> !Full(bins[binNum]))
    }

    /** The cursor's position in the round. */
    ghost function Position(): (p: nat)
      requires Valid()
      reads this
      ensures p < |Round(bins, |bins|)|
    {
      RoundAt(bins, |bins|, binNum, if retune then 0 else entryNum + 1);
      Start(bins, binNum) + if retune then 0 else entryNum + 1
    }

    /** Cuts the entries into bins; the cursor then stands before the first one. */
    method Sort(bandwidth: int) returns (ghost sorted: seq<Entry>)
      requires bins == [] && binNum == 0 && entryNum == 0 && retune && Flat(systems, |systems|) != []
      modifies this`bins
      ensures SortedBins(bins, sorted, bandwidth, systems) && Valid() && Position() == 0
    {
      bins, sorted := SortBins(systems, bandwidth);
      assert forall b :: 0 <= b < |bins| ==> BinOk(bins[b], bandwidth, systems);
      assert systems != [];
    }

    /** Answers with the next slot that is not locked out, and moves the cursor behind it. */
    method GetNextEntry() returns (r: Found)
      requires Valid() && Some(Answers(bins, systems))
      modifies this`binNum, this`entryNum, this`retune
      ensures Valid()
      ensures var p := Target(Answers(bins, systems), old(Position()));
        r == FoundAt(bins, p) && Position() == Wrap(p + 1, |Round(bins, |bins|)|)
      ensures Audible(r, systems)
    {
      ghost var es := Answers(bins, systems);
      ghost var target := Target(es, Position());
      AnswerAudible(bins, systems, Position());
      while true
        invariant Valid() && Target(es, Position()) == target
        decreases Ahead(es, Position())
      {
        var done: bool;
        if entryNum == 0 && retune {
          SkipFull(es);
          r, done := TakeDummy(es);
        } else {
          r, done := TakeEntry(es);
        }
        if done { return; }
      }
    }

    /** Cyclic coverage of n successive calls: their answers are the stops of the round in order, over and over,
        from the one whose turn it is at the cursor. */
    method NextEntries(n: nat) returns (rs: seq<Found>)
      requires Valid() && Some(Answers(bins, systems))
      modifies this`binNum, this`entryNum, this`retune
      ensures Valid() && |rs| == n
      ensures var stops, turn := Stops(Answers(bins, systems)), Rank(Answers(bins, systems), old(Position()));
        && 0 < |stops|
        && forall i :: 0 <= i < n ==> IsStop(rs[i], bins, stops, turn + i)
    {
      hide Answers, Target, Stops, Rank, CursorAfter, FoundAt;
      ghost var es, start := Answers(bins, systems), Position();
      rs := [];
      AtStart(es, start);
      for i := 0 to n
        invariant Valid() && |rs| == i && Position() == CursorAfter(es, start, i)
        invariant forall k :: 0 <= k < i ==> IsStop(rs[k], bins, Stops(es), Rank(es, start) + k)
      {
        OneMore(es, start, i);
        var r := GetNextEntry();
        rs := rs + [r];
      }
    }

    /** The entry by its indices, or the next one when there is no such entry. */
    method GetEntryByIndex(index: seq<int>) returns (r: Found)
      requires Valid() && Some(Answers(bins, systems))
      modifies this`binNum, this`entryNum, this`retune
      ensures Valid()
      ensures var known := |index| >= 2 && 0 <= index[0] < |systems| && 0 <= index[1] < |systems[index[0]].channels|;
        && (known ==>
            && r == Real(Entry(index[0], index[1], systems[index[0]].channels[index[1]].freq))
            && Position() == old(Position()))
        && (!known ==>
              var p := Target(Answers(bins, systems), old(Position()));
              r == FoundAt(bins, p) && Position() == Wrap(p + 1, |Round(bins, |bins|)|))
    {
      if |index| < 2 || index[0] < 0 || index[1] < 0 || index[0] >= |systems|
          || index[1] >= |systems[index[0]].channels| {
        r := GetNextEntry();
      } else {
        r := Real(Entry(index[0], index[1], systems[index[0]].channels[index[1]].freq));
      }
    }

    /** The inner loop: on from a bin counted as locked out to the next, until one that is not. */
    method SkipFull(ghost es: seq<bool>)
      requires Valid() && retune && es == Answers(bins, systems) && Some(es)
      modifies this`binNum
      ensures Valid() && !Full(bins[binNum])
      ensures Ahead(es, Position()) <= old(Ahead(es, Position()))
          && Target(es, Position()) == old(Target(es, Position()))
    {
      hide Ahead, Target, Answers, Round, Start;
      ghost var ahead, target := Ahead(es, Position()), Target(es, Position());
      while Full(bins[binNum])
        invariant Valid() && Ahead(es, Position()) <= ahead && Target(es, Position()) == target
        decreases Ahead(es, Position())
      {
        NextBin(es);
      }
    }

    method NextBin(ghost es: seq<bool>)
      requires Valid() && retune && Full(bins[binNum]) && es == Answers(bins, systems) && Some(es)
      modifies this`binNum
      ensures Valid() && Ahead(es, Position()) < old(Ahead(es, Position()))
          && Target(es, Position()) == old(Target(es, Position()))
    {
      hide Ahead, Target, Answers, Round, Start;
      SkipBin(bins, systems, binNum);
      SmallMod(binNum + 1, |bins|);
      binNum := (binNum + 1) % |bins|;
    }

    /** The branch that answers with the dummy of the bin, unless system 0 is locked out. */
    method TakeDummy(ghost es: seq<bool>) returns (r: Found, done: bool)
      requires Valid() && retune && !Full(bins[binNum]) && es == Answers(bins, systems) && Some(es)
      modifies this`retune
      ensures Valid() && Stepped(es, old(Position()), r, done)
    {
      hide Ahead, Target, Answers, Round, Start;
      DummyAt(bins, systems, binNum);
      PassOrStop(es, Start(bins, binNum));
      retune := false;
      r := Dummy(Center(bins[binNum]));
      done := !systems[0].locked;
    }

    /** The branch that answers with the entry under the cursor, unless it is locked out. */
    method TakeEntry(ghost es: seq<bool>) returns (r: Found, done: bool)
      requires Valid() && !retune && es == Answers(bins, systems) && Some(es)
      modifies this`binNum, this`entryNum, this`retune
      ensures Valid() && Stepped(es, old(Position()), r, done)
    {
      hide Ahead, Target, Answers, Round, Start;
      EntryAt(bins, systems, binNum, entryNum);
      PassOrStop(es, Position());
      var e := bins[binNum].entries[entryNum];
      hide Usable;
      r, done := Real(e), !Locked(e, systems);
      AdvanceEntry();
    }

    /** On to the next entry of the bin, or to the dummy of the next bin. */
    method AdvanceEntry()
      requires Valid() && !retune
      modifies this`binNum, this`entryNum, this`retune
      ensures Valid() && Position() == Wrap(old(Position()) + 1, |Round(bins, |bins|)|)
    {
      NextSlot(bins, binNum, entryNum + 1);
      SmallMod(entryNum + 1, |bins[binNum].entries|);
      SmallMod(binNum + 1, |bins|);
      hide Round, Start;
      entryNum := (entryNum + 1) % |bins[binNum].entries|;
      if entryNum == 0 {
        binNum := (binNum + 1) % |bins|;
        retune := true;
      }
    }

    /** What one round of the loop does from position p: answer with what is there, or come nearer. */
    ghost predicate Stepped(es: seq<bool>, p: nat, r: Found, done: bool)
      requires Valid() && p < |es| == |Round(bins, |bins|)| && Some(es)
      reads this
    {
      && Position() == Wrap(p + 1, |es|)
      && if done then r == FoundAt(bins, p) && Target(es, p) == p
         else Ahead(es, Position()) < Ahead(es, p) && Target(es, Position()) == Target(es, p)
    }
  }

  // ---- what the slots are -----------------------------------------------------------------------

  function FoundAt(bins: seq<Bin>, p: nat): Found
    requires p < |Round(bins, |bins|)|
  {
    match Round(bins, |bins|)[p]
    case DummySlot(b) => if b < |bins| && bins[b].entries != [] then Dummy(Center(bins[b])) else Dummy(0)
    case EntrySlot(b, k) => if b < |bins| && k < |bins[b].entries| then Real(bins[b].entries[k]) else Dummy(0)
  }

  /** Neither an entry of the list nor its system is locked out; a dummy goes with system 0. */
  predicate Audible(f: Found, systems: seq<System>) {
    match f
    case Dummy(_) => systems != [] && !systems[0].locked
    case Real(e) => InList(e, systems) && !systems[e.sys].locked && !systems[e.sys].channels[e.idx].locked
  }

  lemma AnswerAudible(bins: seq<Bin>, systems: seq<System>, c: nat)
    requires Usable(bins, systems) && Some(Answers(bins, systems)) && c < |Answers(bins, systems)|
    ensures Audible(FoundAt(bins, Target(Answers(bins, systems), c)), systems)
  {
    var p := Target(Answers(bins, systems), c);
    AheadHere(Answers(bins, systems), c);
    RoundFits(bins, systems, p);
    hide Target, Ahead, Some, Usable;
  }

  lemma DummyAt(bins: seq<Bin>, systems: seq<System>, b: nat)
    requires Usable(bins, systems) && b < |bins| && !Full(bins[b])
    ensures Start(bins, b) + 1 < |Round(bins, |bins|)|
    ensures FoundAt(bins, Start(bins, b)) == Dummy(Center(bins[b]))
    ensures Answers(bins, systems)[Start(bins, b)] == !systems[0].locked
  {
    RoundAt(bins, |bins|, b, 0);
    RoundAt(bins, |bins|, b, 1);
  }

  lemma EntryAt(bins: seq<Bin>, systems: seq<System>, b: nat, k: nat)
    requires Usable(bins, systems) && b < |bins| && k < |bins[b].entries| && !Full(bins[b])
    ensures Start(bins, b) + k + 1 < |Round(bins, |bins|)|
    ensures FoundAt(bins, Start(bins, b) + k + 1) == Real(bins[b].entries[k])
    ensures Answers(bins, systems)[Start(bins, b) + k + 1] == !Locked(bins[b].entries[k], systems)
  {
    RoundAt(bins, |bins|, b, k + 1);
  }

  lemma SmallMod(x: nat, n: nat)
    requires x <= n && 0 < n
    ensures x % n == Wrap(x, n)
  {
  }

  lemma NextSlot(bins: seq<Bin>, b: nat, k: nat)
    requires b < |bins| && k <= |bins[b].entries|
    ensures var n := |Round(bins, |bins|)|;
      Start(bins, b) + k < n && Wrap(Start(bins, b) + k + 1, n) ==
        (if k < |bins[b].entries| then Start(bins, b) + k + 1 else Start(bins, Wrap(b + 1, |bins|)))
  {
    RoundAt(bins, |bins|, b, k);
    RoundLength(bins, |bins|);
    if k < |bins[b].entries| {
      RoundAt(bins, |bins|, b, k + 1);
    } else if b + 1 < |bins| {
      RoundAt(bins, |bins|, b + 1, 0);
    }
  }

  /** A bin counted as locked out answers nowhere. */
  lemma FullSilent(bins: seq<Bin>, systems: seq<System>, b: nat, k: nat)
    requires Usable(bins, systems) && b < |bins| && Full(bins[b]) && k <= |bins[b].entries|
    ensures Start(bins, b) + k < |Answers(bins, systems)| && !Answers(bins, systems)[Start(bins, b) + k]
  {
    RoundAt(bins, |bins|, b, k);
  }

  lemma SkipBin(bins: seq<Bin>, systems: seq<System>, b: nat)
    requires Usable(bins, systems) && b < |bins| && Full(bins[b]) && Some(Answers(bins, systems))
    ensures var es, next := Answers(bins, systems), Start(bins, Wrap(b + 1, |bins|));
      && Start(bins, b) < |es| && next < |es|
      && Ahead(es, next) < Ahead(es, Start(bins, b)) && Target(es, next) == Target(es, Start(bins, b))
  {
    hide Answers, Round, Ahead, Target, Usable, Start;
    var es := Answers(bins, systems);
    var len := |bins[b].entries|;
    FullSilent(bins, systems, b, len);
    RoundAt(bins, |bins|, Wrap(b + 1, |bins|), 0);
    NextSlot(bins, b, len);
    var start := Start(bins, b);
    forall q | start <= q <= start + len ensures !es[q] {
      FullSilent(bins, systems, b, q - start);
    }
    AheadSkip(es, Start(bins, b), len);
    AheadStep(es, Start(bins, b) + len);
  }

  /** A position that answers is the target; one that does not is passed over. */
  lemma PassOrStop(es: seq<bool>, c: nat)
    requires c < |es| && Some(es)
    ensures es[c] ==> Target(es, c) == c
    ensures !es[c] ==> Ahead(es, Wrap(c + 1, |es|)) < Ahead(es, c) && Target(es, Wrap(c + 1, |es|)) == Target(es, c)
  {
    AheadHere(es, c);
    if !es[c] { AheadStep(es, c); }
  }

  // ---- the endless repetition ---------------------------------------------------------------------

  /** The answering positions below n, in order. */
  ghost function StopsTo(es: seq<bool>, n: nat): seq<nat>
    requires n <= |es|
  {
    if n == 0 then [] else StopsTo(es, n - 1) + if es[n - 1] then [n - 1] else []
  }

  /** The answering positions of one round, in order. */
  ghost function Stops(es: seq<bool>): seq<nat> { StopsTo(es, |es|) }

  /** How many of them come before position c. */
  ghost function Rank(es: seq<bool>, c: nat): nat
    requires c <= |es|
  {
    |StopsTo(es, c)|
  }

  lemma {:induction false} SilentStretch(es: seq<bool>, c: nat, n: nat)
    requires c <= n <= |es| && forall q :: c <= q < n ==> !es[q]
    ensures StopsTo(es, n) == StopsTo(es, c)
  {
    if c < n { SilentStretch(es, c, n - 1); }
  }

  lemma {:induction false} StopsPrefix(es: seq<bool>, c: nat, n: nat)
    requires c <= n <= |es|
    ensures StopsTo(es, c) <= StopsTo(es, n)
  {
    if c < n { StopsPrefix(es, c, n - 1); }
  }

  /** From position c the walk answers at the stop whose turn it is, and then it is the next one's turn. */
  lemma TakesTurn(es: seq<bool>, c: nat)
    requires c < |es| && Some(es)
    ensures var m, r := |Stops(es)|, Rank(es, c);
      && 0 < m && r <= m && Target(es, c) == Stops(es)[if r == m then 0 else r]
      && Rank(es, Wrap(Target(es, c) + 1, |es|)) == (if r == m then (if Target(es, c) + 1 == |es| then 0 else 1)
                                                       else if Target(es, c) + 1 == |es| then 0 else r + 1)
      && (Target(es, c) + 1 == |es| ==> (if r == m then 1 else r + 1) == m)
  {
    var n, ee := |es|, es + es;
    FirstBound(es, c);
    var q := First(ee, c);
    forall p | c <= p < n && p < q ensures !es[p] { assert !ee[p]; }
    StopsPrefix(es, c, n);
    if q < n {
      SilentStretch(es, c, q);
      StopsPrefix(es, q + 1, n);
      assert ee[q] == es[q];
      assert StopsTo(es, q + 1) == StopsTo(es, c) + [q];
    } else {
      var t := q - n;
      SilentStretch(es, c, n);
      forall p | 0 <= p < t ensures !es[p] { assert !ee[p + n] && ee[p + n] == es[p]; }
      SilentStretch(es, 0, t);
      StopsPrefix(es, t + 1, n);
      assert ee[q] == es[t];
      assert StopsTo(es, t + 1) == [t];
    }
  }

  /** Where the cursor is after i answers from position c (GetNextEntry's contract, i times over). */
  ghost function CursorAfter(es: seq<bool>, c: nat, i: nat): (r: nat)
    requires c < |es| && Some(es)
    ensures r < |es|
    decreases i
  {
    if i == 0 then c else Wrap(Target(es, CursorAfter(es, c, i - 1)) + 1, |es|)
  }

  lemma {:induction false} TurnAfter(es: seq<bool>, c: nat, i: nat)
    requires c < |es| && Some(es)
    ensures var m := |Stops(es)|;
      && 0 < m && Rank(es, CursorAfter(es, c, i)) <= m
      && (if Rank(es, CursorAfter(es, c, i)) == m then 0 else Rank(es, CursorAfter(es, c, i))) == (Rank(es, c) + i) % m
  {
    hide Stops, Rank, Target;
    var m := |Stops(es)|;
    if i == 0 {
      TakesTurn(es, c);
      FirstTurn(Rank(es, c), m);
    } else {
      TurnAfter(es, c, i - 1);
      TakesTurn(es, CursorAfter(es, c, i - 1));
      NextTurn(Rank(es, c) + (i - 1), m);
    }
  }

  /** What the walk finds at the k-th stop, counted round. */
  predicate IsStop(found: Found, bins: seq<Bin>, stops: seq<nat>, k: nat)
    requires stops != []
  {
    var p := stops[k % |stops|];
    p < |Round(bins, |bins|)| && found == FoundAt(bins, p)
  }

  lemma FirstTurn(r: nat, m: nat)
    requires r <= m && 0 < m
    ensures r % m == if r == m then 0 else r
  {
    if r == m { ModOnce(0, m); Unique(0, m, 0, 0); } else { Unique(r, m, 0, r); }
  }

  lemma NextTurn(n: nat, m: nat)
    requires 0 < m
    ensures (n + 1) % m == if n % m + 1 == m then 0 else n % m + 1
  {
    ModAdd(n, 1, m);
    FirstTurn(n % m + 1, m);
  }

  /** Cyclic coverage: the answers of successive calls are the stops of the round, in order, over and over. */
  lemma CyclicCoverage(es: seq<bool>, c: nat, i: nat)
    requires c < |es| && Some(es)
    ensures 0 < |Stops(es)|
    ensures Target(es, CursorAfter(es, c, i)) == Stops(es)[(Rank(es, c) + i) % |Stops(es)|]
  {
    TurnAfter(es, c, i);
    TakesTurn(es, CursorAfter(es, c, i));
  }

  lemma AtStart(es: seq<bool>, c: nat)
    requires c < |es| && Some(es)
    ensures CursorAfter(es, c, 0) == c && 0 < |Stops(es)|
  {
    TakesTurn(es, c);
  }

  /** The answer of the next call, and where it leaves the cursor. */
  lemma OneMore(es: seq<bool>, c: nat, i: nat)
    requires c < |es| && Some(es)
    ensures 0 < |Stops(es)| && Target(es, CursorAfter(es, c, i)) == Stops(es)[(Rank(es, c) + i) % |Stops(es)|]
    ensures CursorAfter(es, c, i + 1) == Wrap(Target(es, CursorAfter(es, c, i)) + 1, |es|)
  {
    hide Stops, Rank, Target;
    CyclicCoverage(es, c, i);
  }

  /** And the stops of a round are exactly its answering positions, each once, in ascending order. */
  lemma {:induction false} StopsAre(es: seq<bool>, n: nat)
    requires n <= |es|
    ensures forall i, j :: 0 <= i < j < |StopsTo(es, n)| ==> StopsTo(es, n)[i] < StopsTo(es, n)[j]
    ensures forall i :: 0 <= i < |StopsTo(es, n)| ==> StopsTo(es, n)[i] < n && es[StopsTo(es, n)[i]]
    ensures forall p :: 0 <= p < n && es[p] ==> p in StopsTo(es, n)
  {
    if n != 0 { StopsAre(es, n - 1); }
  }

  // ---- locks ------------------------------------------------------------------------------------

  lemma {:induction false} CountBound(es: seq<Entry>, systems: seq<System>)
    requires AllInList(es, systems)
    ensures CountLocked(es, systems) <= |es|
    ensures CountLocked(es, systems) == |es| <==> forall k :: 0 <= k < |es| ==> Locked(es[k], systems)
  {
    if es != [] {
      var n := |es| - 1;
      CountBound(es[..n], systems);
      assert forall k :: 0 <= k < n ==> es[..n][k] == es[k];
      assert Locked(es[n], systems) ==> (forall k :: 0 <= k < n ==> Locked(es[k], systems)) ==>
        forall k :: 0 <= k < |es| ==> Locked(es[k], systems);
    }
  }

  ghost predicate SomeUnlocked(b: Bin, systems: seq<System>)
    requires AllInList(b.entries, systems)
  {
    exists k :: 0 <= k < |b.entries| && !Locked(b.entries[k], systems)
  }

  /** Whatever the locks are now, an entry is visited exactly when it is unlocked and its bin was not counted as
      locked out when it was filled; a dummy, when its bin was not and system 0 is unlocked. */
  lemma VisitedIff(bins: seq<Bin>, systems: seq<System>, b: nat, k: nat)
    requires Usable(bins, systems) && b < |bins| && k <= |bins[b].entries|
    ensures var es, p := Answers(bins, systems), Start(bins, b) + k;
      p < |es| && (es[p] <==>
        && !Full(bins[b])
        && if k == 0 then !systems[0].locked
           else var e := bins[b].entries[k - 1]; !systems[e.sys].locked && !systems[e.sys].channels[e.idx].locked)
  {
    RoundAt(bins, |bins|, b, k);
  }

  /** With the locks as they were when the bins were filled: every unlocked entry is visited, no locked one is,
      and the dummy of a bin is visited when some entry of it is (and system 0 is unlocked). */
  lemma FixedLocks(bins: seq<Bin>, sorted: seq<Entry>, bandwidth: int, systems: seq<System>,
                                      b: nat, k: nat)
    requires Usable(bins, systems) && Binned(bins, sorted, bandwidth, systems) && b < |bins| && k <= |bins[b].entries|
    ensures var es, p := Answers(bins, systems), Start(bins, b) + k;
      p < |es| && (es[p] <==>
        if k == 0 then SomeUnlocked(bins[b], systems) && !systems[0].locked
        else !Locked(bins[b].entries[k - 1], systems))
  {
    VisitedIff(bins, systems, b, k);
    assert BinOk(bins[b], bandwidth, systems);
    CountBound(bins[b].entries, systems);
    hide Answers, Start, Binned, Usable;
  }

  /** Whatever the locks are now, the walk comes to an end exactly when some bin not counted as locked out has an
      unlocked entry, or any dummy at all (system 0 is unlocked). */
  lemma AnswersIffUnlocked(bins: seq<Bin>, systems: seq<System>)
    requires Usable(bins, systems)
    ensures Some(Answers(bins, systems)) <==>
      exists b :: 0 <= b < |bins| && !Full(bins[b]) && (!systems[0].locked || SomeUnlocked(bins[b], systems))
  {
    hide Answers, Round, Start;
    var es := Answers(bins, systems);
    if b :| 0 <= b < |bins| && !Full(bins[b]) && (!systems[0].locked || SomeUnlocked(bins[b], systems)) {
      if !systems[0].locked {
        VisitedIff(bins, systems, b, 0);
        assert es[Start(bins, b)];
      } else {
        var k :| 0 <= k < |bins[b].entries| && !Locked(bins[b].entries[k], systems);
        VisitedIff(bins, systems, b, k + 1);
        assert es[Start(bins, b) + k + 1];
      }
    }
    if Some(es) {
      var p :| 0 <= p < |es| && es[p];
      var b, k := RoundHas(bins, |bins|, p);
      VisitedIff(bins, systems, b, k);
      assert !Full(bins[b]);
      if k != 0 { assert !Locked(bins[b].entries[k - 1], systems) && SomeUnlocked(bins[b], systems); }
    }
  }

  /** With the locks that the bins were filled with, an unlocked entry is all it takes. */
  lemma FixedLocksAnswer(bins: seq<Bin>, sorted: seq<Entry>, bandwidth: int, systems: seq<System>)
    requires Usable(bins, systems) && Binned(bins, sorted, bandwidth, systems)
    ensures Some(Answers(bins, systems)) <==> exists b :: 0 <= b < |bins| && SomeUnlocked(bins[b], systems)
  {
    hide Answers, SomeUnlocked;
    AnswersIffUnlocked(bins, systems);
    forall b | 0 <= b < |bins| ensures !Full(bins[b]) <==> SomeUnlocked(bins[b], systems) {
      FullIffLocked(bins, sorted, bandwidth, systems, b);
    }
  }

  lemma FullIffLocked(bins: seq<Bin>, sorted: seq<Entry>, bandwidth: int, systems: seq<System>, b: nat)
    requires Usable(bins, systems) && Binned(bins, sorted, bandwidth, systems) && b < |bins|
    ensures !Full(bins[b]) <==> SomeUnlocked(bins[b], systems)
  {
    BinFacts(bins, sorted, bandwidth, systems, b);
    CountBound(bins[b].entries, systems);
    hide Binned, Usable;
  }

  /** Unlocking an entry of a bin that was counted as locked out does not bring it back. */
  lemma StaleCount(bins: seq<Bin>, sorted: seq<Entry>, bandwidth: int, systems: seq<System>,
                                      later: seq<System>, b: nat, k: nat)
    requires Usable(bins, systems) && Binned(bins, sorted, bandwidth, systems) && Usable(bins, later)
    requires b < |bins| && k < |bins[b].entries| && !SomeUnlocked(bins[b], systems)
    ensures Start(bins, b) + k + 1 < |Answers(bins, later)| && !Answers(bins, later)[Start(bins, b) + k + 1]
  {
    assert BinOk(bins[b], bandwidth, systems);
    CountBound(bins[b].entries, systems);
    VisitedIff(bins, later, b, k + 1);
  }
}
