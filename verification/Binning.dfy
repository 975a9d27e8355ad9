/** How scan/SystemList.cpp cuts the sorted entries into bins one tuner setting covers, and how near its
    computed center each entry of a bin lies. */
module Binning {
  import opened MergeSort

  datatype Channel = Channel(freq: int, locked: bool)

  datatype System = System(locked: bool, channels: seq<Channel>)

  /** `locked` is the count kept beside the entries: it is set when the bin is filled and never again. */
  datatype Bin = Bin(entries: seq<Entry>, locked: nat)

  predicate InList(e: Entry, systems: seq<System>) {
    e.sys < |systems| && e.idx < |systems[e.sys].channels|
  }

  /** Locked out itself, or with its system. */
  predicate Locked(e: Entry, systems: seq<System>)
    requires InList(e, systems)
  {
    systems[e.sys].channels[e.idx].locked || systems[e.sys].locked
  }

  /** All entries, system by system. */
  function Flat(systems: seq<System>, n: nat): seq<Entry>
    requires n <= |systems|
  {
    if n == 0 then [] else Flat(systems, n - 1) + EntriesOf(systems[n - 1].channels, n - 1)
  }

  function EntriesOf(channels: seq<Channel>, sys: nat): seq<Entry> {
    seq(|channels|, k requires 0 <= k < |channels| => Entry(sys, k, channels[k].freq))
  }

  ghost function CountLocked(es: seq<Entry>, systems: seq<System>): nat
    requires forall i :: 0 <= i < |es| ==> InList(es[i], systems)
  {
    if es == [] then 0
    else CountLocked(es[..|es| - 1], systems) + if Locked(es[|es| - 1], systems) then 1 else 0
  }

  ghost predicate AllInList(es: seq<Entry>, systems: seq<System>) {
    forall i :: 0 <= i < |es| ==> InList(es[i], systems)
  }

  function Joined(bins: seq<Bin>): seq<Entry> {
    if bins == [] then [] else Joined(bins[..|bins| - 1]) + bins[|bins| - 1].entries
  }

  /** A bin whose entries start within `bandwidth` of its first one, and count their locked ones. */
  ghost predicate BinOk(b: Bin, bandwidth: int, systems: seq<System>) {
    && b.entries != [] && AllInList(b.entries, systems) && b.locked == CountLocked(b.entries, systems)
    && forall k :: 1 <= k < |b.entries| ==> b.entries[k].freq < b.entries[0].freq + bandwidth
  }

  /** The cut is greedy: every bin but the first starts where the one before it could not reach. */
  ghost predicate Greedy(bins: seq<Bin>, bandwidth: int) {
    && (forall b :: 0 <= b < |bins| ==> bins[b].entries != [])
    && forall b, c :: 0 <= b < |bins| && 0 <= c < |bins| && c == b + 1 ==>
         bins[b].entries[0].freq + bandwidth <= bins[c].entries[0].freq
  }

  ghost predicate Binned(bins: seq<Bin>, es: seq<Entry>, bandwidth: int, systems: seq<System>) {
    && Joined(bins) == es && Greedy(bins, bandwidth)
    && forall b :: 0 <= b < |bins| ==> BinOk(bins[b], bandwidth, systems)
  }

  // ---- filling the bins -------------------------------------------------------------------------

  function Flag(isLocked: bool): nat { if isLocked then 1 else 0 }

  /** One round of the loop in sortBins: the next entry opens a new bin or joins the last one. */
  function AddEntry(bins: seq<Bin>, e: Entry, bandwidth: int, isLocked: bool): seq<Bin>
    requires bins != []
  {
    var last := bins[|bins| - 1];
    if last.entries != [] && e.freq >= last.entries[0].freq + bandwidth
    then bins + [Bin([e], Flag(isLocked))]
    else bins[|bins| - 1 := Bin(last.entries + [e], last.locked + Flag(isLocked))]
  }

  lemma AddedCount(es: seq<Entry>, e: Entry, systems: seq<System>)
    requires AllInList(es, systems) && InList(e, systems)
    ensures AllInList(es + [e], systems)
    ensures CountLocked(es + [e], systems) == CountLocked(es, systems) + Flag(Locked(e, systems))
  {
    assert (es + [e])[..|es|] == es;
  }

  /** An entry that opens a bin. */
  lemma OpenBin(e: Entry, bandwidth: int, systems: seq<System>)
    requires InList(e, systems)
    ensures BinOk(Bin([e], Flag(Locked(e, systems))), bandwidth, systems)
  {
    hide Locked, CountLocked;
    CountOne(e, systems);
  }

  lemma CountOne(e: Entry, systems: seq<System>)
    requires InList(e, systems)
    ensures CountLocked([e], systems) == Flag(Locked(e, systems))
  {
    hide Locked;
    assert [e][..0] == [] && CountLocked([], systems) == 0;
  }

  /** An entry that joins a bin. */
  lemma JoinBin(b: Bin, e: Entry, bandwidth: int, systems: seq<System>)
    requires BinOk(b, bandwidth, systems) && InList(e, systems) && e.freq < b.entries[0].freq + bandwidth
    ensures BinOk(Bin(b.entries + [e], b.locked + Flag(Locked(e, systems))), bandwidth, systems)
  {
    hide Locked, CountLocked;
    AddedCount(b.entries, e, systems);
  }

  lemma JoinedOpen(bins: seq<Bin>, b: Bin)
    ensures Joined(bins + [b]) == Joined(bins) + b.entries
  {
    assert (bins + [b])[..|bins|] == bins;
  }

  lemma JoinedJoin(bins: seq<Bin>, e: Entry, n: nat)
    requires bins != []
    ensures var last := bins[|bins| - 1]; Joined(bins[|bins| - 1 := Bin(last.entries + [e], n)]) == Joined(bins) + [e]
  {
    var last := bins[|bins| - 1];
    var rest := bins[..|bins| - 1];
    JoinedOpen(rest, Bin(last.entries + [e], n));
    assert bins[|bins| - 1 := Bin(last.entries + [e], n)] == rest + [Bin(last.entries + [e], n)];
    assert Joined(rest) + (last.entries + [e]) == (Joined(rest) + last.entries) + [e];
  }

  lemma AddKeepsBinned(bins: seq<Bin>, es: seq<Entry>, e: Entry, bandwidth: int, systems: seq<System>)
    requires bins != [] && Binned(bins, es, bandwidth, systems) && InList(e, systems)
    ensures Binned(AddEntry(bins, e, bandwidth, Locked(e, systems)), es + [e], bandwidth, systems)
  {
    hide CountLocked, Locked, Joined, BinOk;
    var last := bins[|bins| - 1];
    assert BinOk(last, bandwidth, systems);
    var bins' := AddEntry(bins, e, bandwidth, Locked(e, systems));
    if e.freq >= last.entries[0].freq + bandwidth {
      OpenBin(e, bandwidth, systems);
      JoinedOpen(bins, Bin([e], Flag(Locked(e, systems))));
    } else {
      JoinBin(last, e, bandwidth, systems);
      JoinedJoin(bins, e, last.locked + Flag(Locked(e, systems)));
    }
  }

  /** Copies every entry out of the systems, as sortBins does before sorting. */
  method Gather(systems: seq<System>) returns (a: array<Entry>)
    ensures fresh(a) && a[..] == Flat(systems, |systems|) && AllInList(a[..], systems)
  {
    var all: seq<Entry> := [];
    for i := 0 to |systems|
      invariant all == Flat(systems, i) && AllInList(all, systems)
    {
      ghost var before := all;
      for k := 0 to |systems[i].channels|
        invariant all == before + EntriesOf(systems[i].channels, i)[..k] && AllInList(all, systems)
      {
        all := all + [Entry(i, k, systems[i].channels[k].freq)];
        ghost var own := EntriesOf(systems[i].channels, i);
        assert own[..k + 1] == own[..k] + [Entry(i, k, systems[i].channels[k].freq)];
      }
      assert EntriesOf(systems[i].channels, i)[..|systems[i].channels|] == EntriesOf(systems[i].channels, i);
    }
    a := new Entry[|all|](i requires 0 <= i < |all| => all[i]);
  }

  lemma SortedInList(es: seq<Entry>, es': seq<Entry>, systems: seq<System>)
    requires AllInList(es, systems) && StablePermutation(es, es')
    ensures AllInList(es', systems)
  {
    forall i | 0 <= i < |es'| ensures InList(es'[i], systems) {
      OfHas(es', i);
      assert Of(es', es'[i].freq) == Of(es, es'[i].freq);
      OfFrom(es, es'[i].freq, es'[i]);
    }
  }

  lemma {:induction false} OfHas(es: seq<Entry>, i: nat)
    requires i < |es|
    ensures es[i] in Of(es, es[i].freq)
  {
    if i != 0 { OfHas(es[1..], i - 1); }
  }

  lemma {:induction false} OfFrom(es: seq<Entry>, f: int, e: Entry)
    requires e in Of(es, f)
    ensures e in es
  {
    if es[0].freq != f || e != es[0] { OfFrom(es[1..], f, e); }
  }

  /** sortBins over a list that holds an entry: the bins cut the stable ascending order of all entries. */
  method SortBins(systems: seq<System>, bandwidth: int) returns (bins: seq<Bin>, ghost sorted: seq<Entry>)
    requires Flat(systems, |systems|) != []
    ensures bins != [] && SortedBins(bins, sorted, bandwidth, systems)
  {
    hide Flat, Joined, CountLocked, Locked, BinOk, Greedy, Binned, Of, StablePermutation, Sorted;
    var a := Gather(systems);
    ghost var flat := a[..];
    assert a[0..a.Length] == a[..];
    Sort(a, 0, a.Length - 1);
    assert a[0..a.Length] == a[..];
    sorted := a[..];
    SortedInList(flat, sorted, systems);
    bins := AddFirst(a[0], Locked(a[0], systems));
    FirstBinned(a[0], bandwidth, systems);
    assert sorted[..1] == [sorted[0]];
    for i := 1 to a.Length
      invariant a[..] == sorted && bins != [] && Binned(bins, sorted[..i], bandwidth, systems)
    {
      AddKeepsBinned(bins, sorted[..i], a[i], bandwidth, systems);
      bins := AddEntry(bins, a[i], bandwidth, Locked(a[i], systems));
      assert sorted[..i + 1] == sorted[..i] + [sorted[i]];
    }
    assert sorted[..|sorted|] == sorted;
  }

  /** The first round: the bin pushed before the loop is still empty. */
  function AddFirst(e: Entry, isLocked: bool): seq<Bin> { AddEntry([Bin([], 0)], e, 0, isLocked) }

  lemma FirstBinned(e: Entry, bandwidth: int, systems: seq<System>)
    requires InList(e, systems)
    ensures AddFirst(e, Locked(e, systems)) == AddEntry([Bin([], 0)], e, bandwidth, Locked(e, systems))
    ensures Binned(AddFirst(e, Locked(e, systems)), [e], bandwidth, systems)
  {
    hide CountLocked, Locked, BinOk;
    OpenBin(e, bandwidth, systems);
    var b := Bin([e], Flag(Locked(e, systems)));
    assert [Bin([], 0)][0 := b] == [b] && [] + [e] == [e] && [b][..0] == [];
    assert AddFirst(e, Locked(e, systems)) == [b];
    assert Joined([b]) == [e];
  }

  // ---- the cut is as coarse as can be -------------------------------------------------------------

  function Offset(bins: seq<Bin>, b: nat): nat
    requires b <= |bins|
  {
    if b == 0 then 0 else Offset(bins, b - 1) + |bins[b - 1].entries|
  }

  lemma {:induction false} JoinedAt(bins: seq<Bin>, b: nat, k: nat)
    requires b < |bins| && k < |bins[b].entries|
    ensures Offset(bins, b) + k < |Joined(bins)| && Joined(bins)[Offset(bins, b) + k] == bins[b].entries[k]
  {
    var n := |bins|;
    JoinedLength(bins[..n - 1]);
    OffsetPrefix(bins, n - 1);
    if b < n - 1 {
      JoinedAt(bins[..n - 1], b, k);
      OffsetPrefix(bins, n - 1);
      OffsetSame(bins, b);
    }
  }

  lemma {:induction false} OffsetSame(bins: seq<Bin>, b: nat)
    requires b < |bins|
    ensures Offset(bins[..|bins| - 1], b) == Offset(bins, b)
  {
    if b != 0 { OffsetSame(bins, b - 1); }
  }

  lemma OffsetPrefix(bins: seq<Bin>, b: nat)
    requires b < |bins| == b + 1
    ensures Offset(bins[..b], b) == Offset(bins, b)
  {
    OffsetSame(bins, b);
  }

  lemma {:induction false} JoinedLength(bins: seq<Bin>)
    ensures |Joined(bins)| == Offset(bins, |bins|)
  {
    var n := |bins|;
    if n != 0 {
      JoinedLength(bins[..n - 1]);
      OffsetSame(bins, n - 1);
    }
  }

  /** An assignment of the entries to m groups, two entries of a group less than the bandwidth apart. */
  ghost predicate Grouping(group: seq<nat>, m: nat, es: seq<Entry>, bandwidth: int) {
    && |group| == |es| && (forall i :: 0 <= i < |es| ==> group[i] < m)
    && forall i, j :: 0 <= i < |es| && 0 <= j < |es| && group[i] == group[j] ==> es[j].freq < es[i].freq + bandwidth
  }

  /** Bins of a sorted list start at least a bandwidth apart, however many lie between. */
  lemma {:induction false} FarApart(bins: seq<Bin>, b: nat, c: nat, bandwidth: int)
    requires Greedy(bins, bandwidth) && 0 < bandwidth && b < c < |bins|
    ensures bins[b].entries[0].freq + bandwidth <= bins[c].entries[0].freq
    decreases c - b
  {
    assert bins[c - 1].entries[0].freq + bandwidth <= bins[c].entries[0].freq;
    if b + 1 < c { FarApart(bins, b, c - 1, bandwidth); }
  }

  function Head(xs: seq<nat>): nat { if xs == [] then 0 else xs[0] }

  lemma {:induction false} Pigeonhole(xs: seq<nat>, m: nat)
    requires forall i :: 0 <= i < |xs| ==> xs[i] < m
    requires forall i, j :: 0 <= i < j < |xs| ==> xs[i] != xs[j]
    ensures |xs| <= m
  {
    if m == 0 {
      var x := Head(xs);
      if xs != [] { assert false; }
    } else {
      if j :| 0 <= j < |xs| && xs[j] == m - 1 {
        Pigeonhole(xs[..j] + xs[j + 1..], m - 1);
      } else {
        Pigeonhole(xs, m - 1);
      }
    }
  }

  /** No grouping of the entries into spans below the bandwidth, in whatever order, uses fewer groups. */
  lemma FewestBins(bins: seq<Bin>, es: seq<Entry>, bandwidth: int, systems: seq<System>, group: seq<nat>, m: nat)
    requires Binned(bins, es, bandwidth, systems) && 0 < bandwidth && Grouping(group, m, es, bandwidth)
    ensures |bins| <= m
  {
    hide BinOk, Joined, Offset;
    forall b | 0 <= b < |bins| ensures Offset(bins, b) < |es| && es[Offset(bins, b)] == bins[b].entries[0] {
      JoinedAt(bins, b, 0);
    }
    var fronts := seq(|bins|, b requires 0 <= b < |bins| => group[Offset(bins, b)]);
    forall b, c | 0 <= b < c < |bins| ensures fronts[b] != fronts[c] {
      FarApart(bins, b, c, bandwidth);
    }
    Pigeonhole(fronts, m);
  }

  /** The bins themselves are such a grouping: each spans less than the bandwidth. */
  lemma BinSpan(bins: seq<Bin>, es: seq<Entry>, bandwidth: int, systems: seq<System>, b: nat, i: nat, j: nat)
    requires Binned(bins, es, bandwidth, systems) && Sorted(es) && 0 < bandwidth && b < |bins|
    requires i < |bins[b].entries| && j < |bins[b].entries|
    ensures bins[b].entries[0].freq <= bins[b].entries[i].freq < bins[b].entries[j].freq + bandwidth
    ensures i <= j ==> bins[b].entries[i].freq <= bins[b].entries[j].freq
  {
    JoinedAt(bins, b, 0);
    JoinedAt(bins, b, i);
    JoinedAt(bins, b, j);
    assert BinOk(bins[b], bandwidth, systems);
  }

  // ---- the cut is determined ------------------------------------------------------------------------

  /** Behind a bin the list ends, or goes on out of its reach. */
  lemma NextFront(bins: seq<Bin>, es: seq<Entry>, bandwidth: int, b: nat)
    requires Joined(bins) == es && Greedy(bins, bandwidth) && b < |bins|
    ensures var o, o' := Offset(bins, b), Offset(bins, b + 1);
      o' == o + |bins[b].entries| && o < |es| && (o' < |es| ==> es[o].freq + bandwidth <= es[o'].freq)
  {
    NextOffset(bins, b);
    hide Joined, Offset;
    JoinedAt(bins, b, 0);
    if b + 1 < |bins| { JoinedAt(bins, b + 1, 0); } else { JoinedLength(bins); }
  }

  /** And within a bin it does not. */
  lemma WithinBin(bins: seq<Bin>, es: seq<Entry>, bandwidth: int, systems: seq<System>, b: nat, k: nat)
    requires Joined(bins) == es && b < |bins| && BinOk(bins[b], bandwidth, systems) && 1 <= k < |bins[b].entries|
    ensures var o := Offset(bins, b); o + k < |es| && es[o + k].freq < es[o].freq + bandwidth
  {
    hide Joined, Offset;
    JoinedAt(bins, b, 0);
    JoinedAt(bins, b, k);
  }

  /** A bin of one cut cannot be shorter than the bin that starts at the same entry in another. */
  lemma NotShorter(bins: seq<Bin>, bins': seq<Bin>, es: seq<Entry>, bandwidth: int, systems: seq<System>, b: nat)
    requires Binned(bins, es, bandwidth, systems) && Binned(bins', es, bandwidth, systems)
    requires b < |bins| && b < |bins'| && Offset(bins, b) == Offset(bins', b)
    ensures |bins'[b].entries| <= |bins[b].entries|
  {
    hide Joined, Offset, Greedy, BinOk, Binned;
    BinFacts(bins, es, bandwidth, systems, b);
    BinFacts(bins', es, bandwidth, systems, b);
    NextFront(bins, es, bandwidth, b);
    if |bins[b].entries| < |bins'[b].entries| {
      WithinBin(bins', es, bandwidth, systems, b, |bins[b].entries|);
    }
  }

  lemma BinFacts(bins: seq<Bin>, es: seq<Entry>, bandwidth: int, systems: seq<System>, b: nat)
    requires Binned(bins, es, bandwidth, systems) && b < |bins|
    ensures Joined(bins) == es && Greedy(bins, bandwidth) && BinOk(bins[b], bandwidth, systems) && bins[b].entries != []
  {
    hide Joined;
  }

  lemma NextOffset(bins: seq<Bin>, b: nat)
    requires b < |bins|
    ensures Offset(bins, b + 1) == Offset(bins, b) + |bins[b].entries|
  {
  }

  lemma {:induction false} SameOffsets(bins: seq<Bin>, bins': seq<Bin>, es: seq<Entry>, bandwidth: int,
                                       systems: seq<System>, b: nat)
    requires Binned(bins, es, bandwidth, systems) && Binned(bins', es, bandwidth, systems)
    requires b <= |bins| && b <= |bins'|
    ensures Offset(bins, b) == Offset(bins', b)
  {
    hide Binned;
    if b != 0 {
      SameOffsets(bins, bins', es, bandwidth, systems, b - 1);
      NotShorter(bins, bins', es, bandwidth, systems, b - 1);
      NotShorter(bins', bins, es, bandwidth, systems, b - 1);
    }
  }

  lemma NoMoreBins(bins: seq<Bin>, bins': seq<Bin>, es: seq<Entry>, bandwidth: int, systems: seq<System>)
    requires Binned(bins, es, bandwidth, systems) && Binned(bins', es, bandwidth, systems)
    ensures |bins'| <= |bins|
  {
    hide Joined, Offset;
    if |bins| < |bins'| {
      SameOffsets(bins, bins', es, bandwidth, systems, |bins|);
      JoinedLength(bins);
      JoinedAt(bins', |bins|, 0);
    }
    hide BinOk;
  }

  lemma SameBin(bins: seq<Bin>, bins': seq<Bin>, es: seq<Entry>, bandwidth: int, systems: seq<System>, b: nat)
    requires Binned(bins, es, bandwidth, systems) && Binned(bins', es, bandwidth, systems) && b < |bins| && b < |bins'|
    ensures bins[b] == bins'[b]
  {
    hide Joined, Offset, CountLocked, Greedy;
    SameOffsets(bins, bins', es, bandwidth, systems, b);
    NotShorter(bins, bins', es, bandwidth, systems, b);
    NotShorter(bins', bins, es, bandwidth, systems, b);
    assert BinOk(bins[b], bandwidth, systems) && BinOk(bins'[b], bandwidth, systems);
    forall k | 0 <= k < |bins[b].entries| ensures bins[b].entries[k] == bins'[b].entries[k] {
      JoinedAt(bins, b, k);
      JoinedAt(bins', b, k);
    }
    assert bins[b].entries == bins'[b].entries;
  }

  /** There is one cut of a list with these properties. */
  lemma CutUnique(bins: seq<Bin>, bins': seq<Bin>, es: seq<Entry>, bandwidth: int, systems: seq<System>)
    requires Binned(bins, es, bandwidth, systems) && Binned(bins', es, bandwidth, systems)
    ensures bins == bins'
  {
    hide Binned;
    NoMoreBins(bins, bins', es, bandwidth, systems);
    NoMoreBins(bins', bins, es, bandwidth, systems);
    forall b | 0 <= b < |bins| ensures bins[b] == bins'[b] {
      SameBin(bins, bins', es, bandwidth, systems, b);
    }
  }

  /** What sortBins makes of its systems: by its contract, one list and one cut of it. */
  ghost predicate SortedBins(bins: seq<Bin>, es: seq<Entry>, bandwidth: int, systems: seq<System>) {
    Sorted(es) && StablePermutation(Flat(systems, |systems|), es) && Binned(bins, es, bandwidth, systems)
  }

  lemma SortBinsUnique(bins: seq<Bin>, bins': seq<Bin>, es: seq<Entry>, es': seq<Entry>, bandwidth: int,
                       systems: seq<System>)
    requires SortedBins(bins, es, bandwidth, systems) && SortedBins(bins', es', bandwidth, systems)
    ensures bins == bins' && es == es'
  {
    hide Flat, Of, Sorted, Binned;
    StableSortUnique(es, es');
    CutUnique(bins, bins', es, bandwidth, systems);
  }

  // ---- tuning ---------------------------------------------------------------------------------

  /** Division as C++ does it, toward zero. */
  function Half(n: int): int { if n < 0 then -(-n / 2) else n / 2 }

  function Center(b: Bin): int
    requires b.entries != []
  {
    if |b.entries| > 1 then Half(b.entries[|b.entries| - 1].freq + b.entries[0].freq) else b.entries[0].freq
  }

  function Distance(x: int, y: int): nat { if x < y then y - x else x - y }

  /** Every entry lies within half the bandwidth of the center computed for its bin. */
  lemma WithinHalf(bins: seq<Bin>, es: seq<Entry>, bandwidth: int, systems: seq<System>, b: nat, i: nat)
    requires Binned(bins, es, bandwidth, systems) && Sorted(es) && 0 < bandwidth && b < |bins| && i < |bins[b].entries|
    ensures bins[b].entries != [] && Distance(bins[b].entries[i].freq, Center(bins[b])) <= bandwidth / 2
  {
    hide Binned, Sorted;
    var last := |bins[b].entries| - 1;
    BinSpan(bins, es, bandwidth, systems, b, i, last);
    BinSpan(bins, es, bandwidth, systems, b, last, 0);
  }

  /** The tuner does not go below half its sample rate. */
  function Tuned(freq: int, rate: nat): int { if freq < rate / 2 then rate / 2 else freq }

  /** Demodulator::setFrequency moves the tuner only for a frequency at least half the sample rate away. */
  predicate Retunes(tuner: int, freq: int, rate: nat) { rate / 2 <= Distance(tuner, freq) }

  ghost predicate NoRetune(b: Bin, rate: nat) {
    b.entries != [] && forall i :: 0 <= i < |b.entries| ==> !Retunes(Tuned(Center(b), rate), b.entries[i].freq, rate)
  }

  /** After the dummy of a bin has tuned to its center, its entries never tune again exactly when the rounded-up
      half of its span is below half the sample rate; for a center the tuner cannot go down to, when all entries
      lie above 0 and below the sample rate (its even part). */
  lemma NoRetuneIff(bins: seq<Bin>, es: seq<Entry>, bandwidth: int, systems: seq<System>, b: nat, rate: nat)
    requires Binned(bins, es, bandwidth, systems) && Sorted(es) && 0 < bandwidth && b < |bins| && 2 <= rate
    requires bins[b].entries != []
    ensures var lo, hi := bins[b].entries[0].freq, bins[b].entries[|bins[b].entries| - 1].freq;
      NoRetune(bins[b], rate) <==>
        if rate / 2 <= Center(bins[b]) then (hi - lo + 1) / 2 < rate / 2 else 0 < lo && hi < 2 * (rate / 2)
  {
    hide Binned, Sorted;
    var n := |bins[b].entries|;
    var lo, hi := bins[b].entries[0].freq, bins[b].entries[n - 1].freq;
    var c := Tuned(Center(bins[b]), rate);
    forall i | 0 <= i < n ensures lo <= bins[b].entries[i].freq <= hi {
      BinSpan(bins, es, bandwidth, systems, b, i, n - 1);
    }
    if NoRetune(bins[b], rate) {
      assert !Retunes(c, lo, rate) && !Retunes(c, hi, rate);
    }
  }

  /** With the sample rate equal to the bandwidth, a span of at most bandwidth - 3 is enough. */
  lemma NarrowBinTunesOnce(bins: seq<Bin>, es: seq<Entry>, bandwidth: nat, systems: seq<System>, b: nat)
    requires Binned(bins, es, bandwidth, systems) && Sorted(es) && 2 <= bandwidth && b < |bins|
    requires bins[b].entries != [] && bandwidth / 2 <= Center(bins[b])
    requires bins[b].entries[|bins[b].entries| - 1].freq - bins[b].entries[0].freq <= bandwidth - 3
    ensures NoRetune(bins[b], bandwidth)
  {
    NoRetuneIff(bins, es, bandwidth, systems, b, bandwidth);
  }

  /** But the cut allows spans up to bandwidth - 1, and the entries of such a bin make the tuner move again. */
  lemma WideBinTunesAgain(bins: seq<Bin>, es: seq<Entry>, bandwidth: nat, systems: seq<System>, b: nat)
    requires Binned(bins, es, bandwidth, systems) && Sorted(es) && 2 <= bandwidth && b < |bins|
    requires bins[b].entries != [] && bandwidth / 2 <= Center(bins[b])
    requires bins[b].entries[|bins[b].entries| - 1].freq - bins[b].entries[0].freq == bandwidth - 1
    ensures !NoRetune(bins[b], bandwidth)
  {
    NoRetuneIff(bins, es, bandwidth, systems, b, bandwidth);
  }

  /** And sortBins makes such a bin: whatever it makes of two channels bandwidth - 1 apart is one bin of both. */
  lemma WideBinExists(freq: nat, bandwidth: nat, systems: seq<System>, bins: seq<Bin>, sorted: seq<Entry>)
    requires 2 <= bandwidth <= freq
    requires systems == [System(false, [Channel(freq, false), Channel(freq + bandwidth - 1, false)])]
    requires SortedBins(bins, sorted, bandwidth, systems)
    ensures bins == [Bin([Entry(0, 0, freq), Entry(0, 1, freq + bandwidth - 1)], 0)] && !NoRetune(bins[0], bandwidth)
  {
    hide CountLocked, Joined, BinOk, Binned, Of, Flat, NoRetune;
    var e, e' := Entry(0, 0, freq), Entry(0, 1, freq + bandwidth - 1);
    FlatTwo(freq, freq + bandwidth - 1, systems);
    OneBin(e, e', bandwidth, systems);
    SortBinsUnique(bins, [Bin([e, e'], 0)], sorted, [e, e'], bandwidth, systems);
    WideBinTunesAgain(bins, sorted, bandwidth, systems, 0);
  }

  lemma FlatTwo(f: int, f': int, systems: seq<System>)
    requires systems == [System(false, [Channel(f, false), Channel(f', false)])]
    ensures Flat(systems, |systems|) == [Entry(0, 0, f), Entry(0, 1, f')]
  {
    assert Flat(systems, 0) == [];
  }

  lemma OneBin(e: Entry, e': Entry, bandwidth: int, systems: seq<System>)
    requires InList(e, systems) && InList(e', systems) && !Locked(e, systems) && !Locked(e', systems)
    requires e.freq <= e'.freq < e.freq + bandwidth
    ensures Binned([Bin([e, e'], 0)], [e, e'], bandwidth, systems) && Sorted([e, e'])
  {
    hide CountLocked, Joined, BinOk, Locked;
    var b := Bin([e] + [e'], 0);
    JoinBinAfter(e, e', bandwidth, systems);
    JoinedOpen([], b);
    JoinedNone();
    assert [] + [b] == [b] && b.entries == [e, e'];
  }

  lemma JoinedNone()
    ensures Joined([]) == []
  {
  }

  lemma JoinBinAfter(e: Entry, e': Entry, bandwidth: int, systems: seq<System>)
    requires InList(e, systems) && InList(e', systems) && e'.freq < e.freq + bandwidth
    ensures BinOk(Bin([e] + [e'], Flag(Locked(e, systems)) + Flag(Locked(e', systems))), bandwidth, systems)
  {
    OpenBin(e, bandwidth, systems);
    JoinBin(Bin([e], Flag(Locked(e, systems))), e', bandwidth, systems);
    hide BinOk, Locked;
  }
}
