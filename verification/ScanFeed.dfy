/** The list's cursor as the scanner's source of entries: what ScannerMachine assumes of the answers follows
    from what ScanCursor proves of the walk. */
module ScanFeed {
  import opened Modulo
  import B = Binning
  import opened ScanCursor
  import M = ScannerMachine

  function EntOf(f: Found): M.Ent {
    match f
    case Dummy(center) => M.Dummy(center)
    case Real(e) => M.Listed(e.sys, e.idx)
  }

  /** The i-th answer from cursor position c on, with the locks as they are. */
  ghost function Answer(bins: seq<B.Bin>, systems: seq<B.System>, c: nat, i: nat): M.Ent
    requires Usable(bins, systems) && Some(Answers(bins, systems)) && c < |Answers(bins, systems)|
  {
    EntOf(FoundAt(bins, Target(Answers(bins, systems), CursorAfter(Answers(bins, systems), c, i))))
  }

  /** Within one round of stops, any stop comes up. */
  lemma StopComes(es: seq<bool>, c: nat, i: nat, t: nat) returns (j: nat)
    requires c < |es| && Some(es) && t < |Stops(es)|
    ensures i <= j < i + |Stops(es)| && Target(es, CursorAfter(es, c, j)) == Stops(es)[t]
  {
    hide Stops, Rank, Target, CursorAfter;
    var m, r := |Stops(es)|, Rank(es, c);
    var d := (t - (r + i)) % m;
    j := i + d;
    ModAdd(t - (r + i), r + i, m);
    Unique(t, m, 0, t);
    assert d + (r + i) == r + j && t - (r + i) + (r + i) == t;
    CyclicCoverage(es, c, j);
  }

  /** As long as some entry is visited at all, real entries keep coming: the loop in ST_Hold that leaves the
      dummies behind ends, after at most a round. */
  lemma RealEntriesKeepComing(bins: seq<B.Bin>, systems: seq<B.System>, c: nat, b: nat, k: nat,
                                                 feed: nat -> M.Ent)
    requires Usable(bins, systems) && b < |bins| && k < |bins[b].entries| && c < |Answers(bins, systems)|
    requires !Full(bins[b]) && !B.Locked(bins[b].entries[k], systems)
    ensures Some(Answers(bins, systems))
    ensures (forall i: nat :: feed(i) == Answer(bins, systems, c, i)) ==> M.Lively(feed)
  {
    var es := Answers(bins, systems);
    EntryAt(bins, systems, b, k);
    var p := Start(bins, b) + k + 1;
    assert es[p];
    if forall i: nat :: feed(i) == Answer(bins, systems, c, i) {
      StopsAre(es, |es|);
      var t :| 0 <= t < |Stops(es)| && Stops(es)[t] == p;
      forall i: nat ensures M.RealAfter(feed, i) {
        var j := StopComes(es, c, i, t);
        hide Answers, Target, CursorAfter, Stops;
        assert feed(j) == Answer(bins, systems, c, j);
        assert feed(j).Listed?;
      }
      forall i: nat ensures feed(i).Dummy? || feed(i).Listed? {
        assert feed(i) == Answer(bins, systems, c, i);
      }
    }
  }
}
