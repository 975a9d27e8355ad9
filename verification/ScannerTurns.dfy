/** What each request leads to, and each turn of the engine, told by the states of the scanner. */
module ScannerTurns {
  import opened ScannerMachine

  // ---- requests -----------------------------------------------------------------------------------

  /** startScan, from every state it is not ignored in: the next turn of the engine scans, from the cursor's next
      answer on, and nobody holds any more. */
  lemma StartScanScans(feed: nat -> Ent, sizes: seq<nat>, s: State, r: Report)
    requires Lively(feed) && s.running && (s.cur == Load || s.cur == Hold || s.cur == Receive || s.cur == Manual)
    ensures var s1 := Ask(s, StartScan);
      && s1 == s.(cur := Scan, last := s.cur, pending := true, data := NoData, external := true) && CanRun(s1)
      && var u := Run(feed, sizes, s1, r);
         && u.log == s.log + [Rec(Scan, feed(s.cursor), s.cursor + 1, r.signal && feed(s.cursor).Listed?)]
         && u.entry == feed(s.cursor) && u.cursor == s.cursor + 1 && !u.externalHold && !u.manualMode
         && u.pending && (u.cur == Scan || u.cur == Receive)
  {
    assert feed(s.cursor).Dummy? || feed(s.cursor).Listed?;
    hide Lively, Run;
    RunIs(feed, sizes, Ask(s, StartScan), r);
  }

  /** While scanning, and once a stop is on its way, startScan changes nothing. */
  lemma StartScanIgnored(s: State)
    requires s.cur == Scan || s.cur == SaveAll || s.cur == Stopped
    ensures Ask(s, StartScan) == s
  {
  }

  /** The entry and cursor of the first answer from the cursor on that is no dummy. */
  ghost predicate FirstRealFrom(feed: nat -> Ent, cursor: nat, e: Ent, cursor': nat) {
    && cursor < cursor' && e == feed(cursor' - 1) && e.Listed?
    && forall k: nat :: cursor <= k < cursor' - 1 ==> feed(k).Dummy?
  }

  /** Where a turn of ST_Hold ends up: on the entry whose index was asked for, if there is one; else, if an index was
      asked for or the current entry is a dummy, on the next real entry; else where it was. */
  lemma HoldTurn(feed: nat -> Ent, sizes: seq<nat>, s: State, r: Report)
    requires Lively(feed) && CanRun(s) && s.cur == Hold
    ensures var u := Run(feed, sizes, s, r);
      var asked := s.externalHold && s.holdIndex != [];
      && u.log == s.log + [Rec(Hold, u.entry, u.cursor, r.signal)] && u.externalHold == s.externalHold
      && (if asked && Known(s.holdIndex, sizes) then
            u.entry == Listed(s.holdIndex[0], s.holdIndex[1]) && u.cursor == s.cursor
          else if asked || s.entry.Dummy? then FirstRealFrom(feed, s.cursor, u.entry, u.cursor)
          else u.entry == s.entry && u.cursor == s.cursor)
      && u.holdIndex == (if asked then [] else s.holdIndex)
  {
    var t := Ready(s);
    NextRealIsFirst(feed, s.cursor);
    HeldEntryIs(feed, sizes, t);
    HeldEntryIsReal(feed, sizes, t);
    hide Run, Lively, HeldEntry;
    RunIs(feed, sizes, s, r);
  }

  lemma NextRealIsFirst(feed: nat -> Ent, i: nat)
    requires Lively(feed)
    ensures FirstRealFrom(feed, i, feed(NextReal(feed, i)), NextReal(feed, i) + 1)
  {
    hide Lively;
  }

  lemma HeldEntryIs(feed: nat -> Ent, sizes: seq<nat>, s: State)
    requires Lively(feed)
    ensures var (e, cursor) := HeldEntry(feed, sizes, s);
      if Picks(s) && Known(s.holdIndex, sizes) then e == Listed(s.holdIndex[0], s.holdIndex[1]) && cursor == s.cursor
      else if Picks(s) || s.entry.Dummy? then FirstRealFrom(feed, s.cursor, e, cursor)
      else e == s.entry && cursor == s.cursor
  {
    assert feed(s.cursor).Dummy? || feed(s.cursor).Listed?;
    NextRealIsFirst(feed, s.cursor);
    NextRealIsFirst(feed, s.cursor + 1);
    hide Lively, NextReal;
  }

  /** holdScan, after loading or while scanning: the next turn of the engine holds. Else the event that is pending
      stays, and the request is kept for the next turn that holds. */
  lemma HoldScanHolds(s: State, index: seq<int>)
    ensures var s1, kept := Ask(s, HoldScan(index)), s.(externalHold := true, holdIndex := index);
      if s.cur == Load || s.cur == Scan then
        s1 == kept.(cur := Hold, last := s.cur, pending := true, data := NoData, external := true)
      else s1 == kept
  {
  }

  /** stopScanner, unless stopped already: the next turn of the engine saves, and the one after it ends the engine. */
  lemma StopScannerStops(feed: nat -> Ent, sizes: seq<nat>, s: State, r: Report, r': Report)
    requires Lively(feed) && s.running && s.cur != Stopped
    requires s.entry != NoEntry || !(s.externalHold || s.manualMode)
    ensures var s1 := Ask(s, StopScanner);
      && s1 == s.(cur := SaveAll, last := s.cur, pending := true, data := NoData, external := true) && CanRun(s1)
      && var u := Run(feed, sizes, s1, r);
         && u.log == s.log + [Rec(SaveAll, s.entry, s.cursor, false)] && u.cur == Stopped && CanRun(u)
         && u.saved == (if s.manualMode then SavedManual(s.entry) else if s.externalHold then SavedHold(s.entry)
                        else SavedScan)
         && var v := Run(feed, sizes, u, r'); !v.running && !v.pending && v.saved == u.saved
  {
    hide Run, Lively;
    RunIs(feed, sizes, Ask(s, StopScanner), r);
    RunIs(feed, sizes, Run(feed, sizes, Ask(s, StopScanner), r), r');
  }

  lemma StopScannerIgnored(s: State)
    requires s.cur == Stopped
    ensures Ask(s, StopScanner) == s
  {
  }

  /** manualEntry, until a stop is on its way: the next turn of the engine tunes to the frequency, and the one after
      it holds there, unless an index was asked for meanwhile. */
  lemma ManualEntryTunes(feed: nat -> Ent, sizes: seq<nat>, s: State, freq: int, modulation: string, r: Report,
                         r': Report)
    requires Lively(feed) && s.running
    requires s.cur == Load || s.cur == Scan || s.cur == Hold || s.cur == Receive || s.cur == Manual
    ensures var s1, e := Ask(s, ManualEntry(freq, modulation)),
                         ManualEnt(freq, if modulation == "AM" then "AM" else "NFM");
      && s1 == s.(cur := Manual, last := s.cur, pending := true, data := ManualData(freq, modulation), external := true)
      && CanRun(s1)
      && var u := Run(feed, sizes, s1, r);
         && u.log == s.log + [Rec(Manual, e, s.cursor, false)] && u.entry == e && u.cursor == s.cursor
         && u.externalHold && u.manualMode && u.cur == Hold && u.holdIndex == s.holdIndex && CanRun(u)
         && (s.holdIndex == [] ==>
               var v := Run(feed, sizes, u, r');
               && v.log == u.log + [Rec(Hold, e, s.cursor, r'.signal)] && v.entry == e && v.cursor == s.cursor
               && v.externalHold && v.pending && v.cur == (if r'.signal then Receive else Hold))
  {
    hide Run, Lively, HeldEntry;
    var s1 := Ask(s, ManualEntry(freq, modulation));
    RunIs(feed, sizes, s1, r);
    var u := Run(feed, sizes, s1, r);
    HoldTurn(feed, sizes, u, r');
    RunIs(feed, sizes, u, r');
  }

  lemma ManualEntryIgnored(s: State, freq: int, modulation: string)
    requires s.cur == SaveAll || s.cur == Stopped
    ensures Ask(s, ManualEntry(freq, modulation)) == s
  {
  }

  // ---- turns of the engine ------------------------------------------------------------------------

  /** Loading ends with nothing pending: the scanner waits for a request. Stopping ends the engine. */
  lemma LoadTurn(feed: nat -> Ent, sizes: seq<nat>, s: State, r: Report)
    requires Lively(feed) && CanRun(s) && (s.cur == Load || s.cur == Stopped)
    ensures var u := Run(feed, sizes, s, r);
      && u == s.(pending := false, data := NoData, external := false, running := s.cur == Load, log := u.log)
      && u.log == s.log + [Rec(s.cur, s.entry, s.cursor, false)] && !CanRun(u)
  {
    hide Run, Lively;
    RunIs(feed, sizes, s, r);
  }

  /** Receiving goes on while there is a signal; the turn that finds none starts the delay and turns to holding. */
  lemma ReceiveTurn(feed: nat -> Ent, sizes: seq<nat>, s: State, r: Report)
    requires Lively(feed) && Inv(s) && CanRun(s) && s.cur == Receive
    ensures var u := Run(feed, sizes, s, r);
      && u.log == s.log + [Rec(Receive, s.entry, s.cursor, r.signal)] && u.pending
      && u.cur == (if r.signal then Receive else Hold) && u.timeoutStart == (if r.signal then s.timeoutStart else r.now)
      && u.entry == s.entry && u.cursor == s.cursor && u.externalHold == s.externalHold && u.holdIndex == s.holdIndex
  {
    assert !s.entry.Dummy? by { hide Run; }
    hide Run, Lively, Inv;
    RunIs(feed, sizes, s, r);
  }

  /** How many of the last executions in a row found a signal on this entry in ST_Scan, from one cursor advance. */
  function Hits(log: seq<Rec>, e: Ent, cursor: nat): nat {
    if log == [] || log[|log| - 1] != Rec(Scan, e, cursor, true) then 0 else 1 + Hits(log[..|log| - 1], e, cursor)
  }

  /** The count of hits kept is the one the log shows, and the cursor has never been further on. */
  ghost predicate Counted(s: State) {
    && (s.cur.Scan? && s.last.Scan? && s.hits != 0 ==> Hits(s.log, s.entry, s.cursor) == s.hits)
    && forall i :: 0 <= i < |s.log| ==> s.log[i].cursor <= s.cursor
  }

  lemma HitsAhead(log: seq<Rec>, e: Ent, cursor: nat)
    requires forall i :: 0 <= i < |log| ==> log[i].cursor < cursor
    ensures Hits(log, e, cursor) == 0
  {
  }

  lemma ScanCounts(feed: nat -> Ent, sizes: seq<nat>, s: State, r: Report)
    requires Lively(feed) && CanRun(s) && s.cur.Scan? && Counted(s) && (s.last.Scan? ==> s.hits < TRIGGER_HITS)
    ensures var u := Run(feed, sizes, s, r);
      && Counted(u) && u.pending && u.last == Scan && u.log[..|s.log|] == s.log && |u.log| == |s.log| + 1
      && u.log[|s.log|].st == Scan
      && u.cur == (if Hits(u.log, u.entry, u.cursor) == TRIGGER_HITS then Receive else Scan)
  {
    hide Run, Lively, Hits;
    RunIs(feed, sizes, s, r);
    var t := Ready(s);
    var s1 := Advance(feed, t);
    var rec := Rec(Scan, s1.entry, s1.cursor, HasSignal(s1.entry, r));
    if s1.hits == 0 { HitsAhead(s.log, s1.entry, s1.cursor); }
    HitsStep(s.log, rec, s1.entry, s1.cursor);
  }

  lemma HitsStep(log: seq<Rec>, rec: Rec, e: Ent, cursor: nat)
    ensures Hits(log + [rec], e, cursor) == if rec == Rec(Scan, e, cursor, true) then 1 + Hits(log, e, cursor) else 0
  {
    assert (log + [rec])[..|log|] == log;
  }

  lemma OtherCounts(feed: nat -> Ent, sizes: seq<nat>, s: State, r: Report)
    requires Lively(feed) && CanRun(s) && !s.cur.Scan? && Counted(s)
    ensures Counted(Run(feed, sizes, s, r))
  {
    hide Lively, Hits, Run;
    RunEnds(feed, sizes, s, r);
    CursorGrows(feed, sizes, s, r);
  }

  lemma CursorGrows(feed: nat -> Ent, sizes: seq<nat>, s: State, r: Report)
    requires Lively(feed) && CanRun(s) && !s.cur.Scan?
    ensures var u := Run(feed, sizes, s, r);
      && s.cursor <= u.cursor && |u.log| == |s.log| + 1 && u.log[|s.log|].cursor == u.cursor
  {
    hide Lively, Run;
    if s.cur.Hold? { HoldTurn(feed, sizes, s, r); } else { CursorStays(feed, sizes, s, r); }
  }

  lemma CursorStays(feed: nat -> Ent, sizes: seq<nat>, s: State, r: Report)
    requires Lively(feed) && CanRun(s) && !s.cur.Scan? && !s.cur.Hold?
    ensures var u := Run(feed, sizes, s, r);
      && s.cursor == u.cursor && |u.log| == |s.log| + 1 && u.log[|s.log|].cursor == u.cursor
  {
    hide Lively, Run, RunHold, RunScan, HasSignal, ManualChannel;
    RunIs(feed, sizes, s, r);
  }

  lemma AskCounts(s: State, r: Request)
    requires Counted(s)
    ensures Counted(Ask(s, r))
  {
    hide Hits;
  }

  lemma {:induction false} RunCounts(feed: nat -> Ent, sizes: seq<nat>, s: State, run: seq<Choice>, t: State)
    requires Lively(feed) && Inv(s) && Counted(s) && Reaches(feed, sizes, s, run, t)
    ensures Counted(t) && Inv(t)
    decreases |run|
  {
    hide Counted, Lively, Run, Ask;
    if run != [] {
      StepKeepsInv(feed, sizes, s, run[0]);
      match run[0] {
        case Event(request) => AskCounts(s, request);
        case Engine(report) =>
          if s.cur.Scan? { ScanCounts(feed, sizes, s, report); } else { OtherCounts(feed, sizes, s, report); }
      }
      hide Inv;
      RunCounts(feed, sizes, Step(feed, sizes, s, run[0]), run[1..], t);
    }
  }

  /** In every run, a turn of ST_Scan leads to receiving if and only if it is the 25th in a row that found a signal on
      one entry from one cursor advance; else scanning goes on. */
  lemma ReceiveIffStreak(feed: nat -> Ent, sizes: seq<nat>, s0: State, run: seq<Choice>, s: State, r: Report)
    requires Lively(feed) && Initial(s0) && Reaches(feed, sizes, s0, run, s) && CanRun(s) && s.cur.Scan?
    ensures var u := Run(feed, sizes, s, r);
      && (u.cur == Receive || u.cur == Scan)
      && (u.cur == Receive <==> Hits(u.log, u.entry, u.cursor) == TRIGGER_HITS)
  {
    hide Run, Lively, Reaches, Counted, Hits;
    assert Inv(s0) && Counted(s0) by { StartsCounted(s0); }
    RunCounts(feed, sizes, s0, run, s);
    ScanCounts(feed, sizes, s, r);
  }

  lemma StartsCounted(s0: State)
    requires Initial(s0)
    ensures Inv(s0) && Counted(s0)
  {
  }

  /** And until then it stays on the entry: the turn after one that found a signal looks at the same entry again,
      and one after a turn without looks at the cursor's next answer. */
  lemma ScanTurn(feed: nat -> Ent, sizes: seq<nat>, s: State, r: Report, r': Report)
    requires Lively(feed) && CanRun(s) && s.cur == Scan && Run(feed, sizes, s, r).cur == Scan
    ensures var u := Run(feed, sizes, s, r);
      && CanRun(u)
      && var v, found := Run(feed, sizes, u, r'), r.signal && !u.entry.Dummy?;
         if found then v.entry == u.entry && v.cursor == u.cursor
         else v.entry == feed(u.cursor) && v.cursor == u.cursor + 1
  {
    hide Run, Lively;
    RunIs(feed, sizes, s, r);
    RunIs(feed, sizes, Run(feed, sizes, s, r), r');
  }
}
