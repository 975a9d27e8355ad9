/** The scanner as the object it is: the fields of ScannerSM and its StateMachine base, updated by the event
    methods, the state functions and the engine, each proved against ScannerMachine. */
module Scanner {
  import opened ScannerMachine

  class ScannerSM {
    /** The list's cursor, as the answers getNextEntry gives one after another, and how many it has given. */
    const feed: nat -> Ent
    const sizes: seq<nat>
    var cursor: nat

    var currentState: St
    var lastState: St
    var evtSrcExternal: bool
    var eventGenerated: bool
    var eventData: EventData
    var running: bool

    var currentEntry: Ent
    var externalHold: bool
    var manualMode: bool
    var holdIndex: seq<int>
    var squelchHits: nat
    var timeoutStart: int
    var saved: Saved
    ghost var log: seq<Rec>

    ghost function View(): State
      reads this
    {
      State(currentState, lastState, eventGenerated, eventData, evtSrcExternal, running, currentEntry, externalHold,
            manualMode, holdIndex, squelchHits, cursor, timeoutStart, saved, log)
    }

    constructor (feed: nat -> Ent, sizes: seq<nat>)
      ensures this.feed == feed && this.sizes == sizes && Initial(View())
    {
      this.feed, this.sizes, cursor := feed, sizes, 0;
      currentState, lastState, evtSrcExternal := Load, Load, false;
      eventGenerated, eventData, running := true, NoData, true;
      currentEntry, externalHold, manualMode, holdIndex, squelchHits := NoEntry, false, false, [], 0;
      saved, log := NotSaved, [];
    }

    // ---- events -----------------------------------------------------------------------------------

    method InternalEvent(newState: St, data: EventData)
      modifies this`eventData, this`eventGenerated, this`lastState, this`currentState
      ensures View() == Post(old(View()), newState, data)
    {
      eventData := data;
      eventGenerated := true;
      lastState := currentState;
      currentState := newState;
    }

    method ExternalEvent(target: Target, data: EventData)
      modifies this`eventData, this`eventGenerated, this`lastState, this`currentState, this`evtSrcExternal
      ensures View() == External(old(View()), target, data)
    {
      if target.To? {
        InternalEvent(target.st, data);
        evtSrcExternal := true;
      }
    }

    method Request(r: Request)
      modifies this
      ensures View() == Ask(old(View()), r)
    {
      match r
      case StartScan => ExternalEvent(ScanTable(currentState), NoData);
      case HoldScan(index) =>
        externalHold := true;
        holdIndex := index;
        ExternalEvent(HoldTable(currentState), NoData);
      case StopScanner => ExternalEvent(StopTable(currentState), NoData);
      case ManualEntry(freq, modulation) => ExternalEvent(ManualTable(currentState), ManualData(freq, modulation));
    }

    // ---- state functions ----------------------------------------------------------------------------

    method GetNextEntry()
      modifies this`currentEntry, this`cursor
      ensures currentEntry == feed(old(cursor)) && cursor == old(cursor) + 1
    {
      currentEntry := feed(cursor);
      cursor := cursor + 1;
    }

    method NextForScan()
      modifies this
      ensures View() == Advance(feed, old(View()))
    {
      if currentState != lastState { squelchHits := 0; }
      manualMode := false;
      externalHold := false;
      if squelchHits == 0 || currentState != lastState { GetNextEntry(); }
    }

    method StScan(r: Report)
      modifies this
      ensures View() == RunScan(feed, old(View()), r)
    {
      NextForScan();
      var found := HasSignal(currentEntry, r);
      if found {
        squelchHits := squelchHits + 1;
        InternalEvent(if squelchHits >= TRIGGER_HITS then Receive else Scan, NoData);
      } else {
        squelchHits := 0;
        InternalEvent(Scan, NoData);
      }
      log := log + [Rec(Scan, currentEntry, cursor, found)];
    }

    /** The index hold, and the loop that does not hold on dummy channels. */
    method PickEntry()
      requires Lively(feed)
      modifies this`currentEntry, this`cursor, this`holdIndex
      ensures (currentEntry, cursor) == HeldEntry(feed, sizes, old(View()))
      ensures holdIndex == if Picks(old(View())) then [] else old(holdIndex)
    {
      ghost var before := View();
      if externalHold && holdIndex != [] {
        if Known(holdIndex, sizes) {
          currentEntry := Listed(holdIndex[0], holdIndex[1]);
        } else {
          GetNextEntry();
        }
        holdIndex := [];
      }
      ghost var (e, c) := PickHeld(feed, sizes, before);
      ghost var n := NextReal(feed, c);
      while currentEntry.Dummy?
        invariant holdIndex == if Picks(before) then [] else before.holdIndex
        invariant (currentEntry, cursor) == (e, c)
            || (e.Dummy? && c < cursor <= n + 1 && currentEntry == feed(cursor - 1))
        decreases n + 1 - cursor
      {
        GetNextEntry();
      }
    }

    /** The chain of tests at the end of ST_Hold; it may end without an event. */
    method LeaveHold(r: Report)
      modifies this`eventData, this`eventGenerated, this`lastState, this`currentState
      ensures var s := old(View()); var target := HoldTarget(s, r);
        View() == if target.Ignored? then s else Post(s, target.st, NoData)
    {
      if HasSignal(currentEntry, r) {
        InternalEvent(Receive, NoData);
      } else if externalHold {
        InternalEvent(Hold, NoData);
      } else if r.locked {
        InternalEvent(Scan, NoData);
      } else if r.delay != 0 {
        if r.now - timeoutStart < r.delay {
          InternalEvent(Hold, NoData);
        } else if !evtSrcExternal {
          InternalEvent(Scan, NoData);
        }
      } else if !evtSrcExternal {
        InternalEvent(Scan, NoData);
      }
    }

    method StHold(r: Report)
      requires Lively(feed)
      modifies this
      ensures View() == RunHold(feed, sizes, old(View()), r)
    {
      ghost var before := View();
      PickEntry();
      hide HeldEntry, Picks, Lively, HoldTarget;
      ghost var held := before.(entry := currentEntry, cursor := cursor, holdIndex := holdIndex);
      assert View() == held;
      LeaveHold(r);
      log := log + [Rec(Hold, held.entry, held.cursor, HasSignal(held.entry, r))];
    }

    method StReceive(r: Report)
      modifies this
      ensures View() == RunReceive(old(View()), r)
    {
      if r.locked { InternalEvent(Scan, NoData); }
      if HasSignal(currentEntry, r) {
        InternalEvent(Receive, NoData);
      } else {
        InternalEvent(Hold, NoData);
        timeoutStart := r.now;
      }
      log := log + [Rec(Receive, currentEntry, cursor, HasSignal(currentEntry, r))];
    }

    method StManual(data: EventData)
      requires data.ManualData?
      modifies this
      ensures View() == RunManual(old(View()), data)
    {
      currentEntry := ManualChannel(data.freq, data.modulation);
      externalHold := true;
      manualMode := true;
      InternalEvent(Hold, NoData);
      log := log + [Rec(Manual, currentEntry, cursor, false)];
    }

    method StSaveAll()
      modifies this
      ensures View() == RunSaveAll(old(View()))
    {
      if manualMode { saved := SavedManual(currentEntry); }
      else if externalHold { saved := SavedHold(currentEntry); }
      else { saved := SavedScan; }
      InternalEvent(Stopped, NoData);
      log := log + [Rec(SaveAll, currentEntry, cursor, false)];
    }

    /** The list is read by now; the machine waits for an event. */
    method StLoad()
      modifies this`log
      ensures View() == RunLoad(old(View()))
    {
      log := log + [Rec(Load, currentEntry, cursor, false)];
    }

    method StStopped()
      modifies this`running, this`log
      ensures View() == RunStopped(old(View()))
    {
      running := false;
      log := log + [Rec(Stopped, currentEntry, cursor, false)];
    }

    // ---- the engine ---------------------------------------------------------------------------------

    method StateEngine(r: Report)
      requires Lively(feed) && CanRun(View())
      modifies this
      ensures View() == Run(feed, sizes, old(View()), r)
    {
      hide RunLoad, RunScan, RunHold, RunReceive, RunManual, RunSaveAll, RunStopped, Lively;
      var data := eventData;
      eventData := NoData;
      eventGenerated := false;
      match currentState {
        case Load => StLoad();
        case Scan => StScan(r);
        case Hold => StHold(r);
        case Receive => StReceive(r);
        case Manual => StManual(data);
        case SaveAll => StSaveAll();
        case Stopped => StStopped();
      }
      evtSrcExternal := false;
    }
  }
}
