/** The scanner's state machine (ScannerSM.cpp over util/StateMachine.cpp) as functions on its state, and what
    holds of every run. External events do not overlap an engine step; what the radio reports (signal, lockout,
    the entry's resume delay, the time) is an input of each step, except that a dummy never has a signal. */
module ScannerMachine {

  /** SQUELCH_TRIGGER_HITS */
  const TRIGGER_HITS: nat := 25

  datatype St = Load | Scan | Hold | Receive | Manual | SaveAll | Stopped

  /** The current entry: none yet, a bin's retune dummy, an entry of the list, or a manual one. */
  datatype Ent = NoEntry | Dummy(center: int) | Listed(sys: int, idx: int) | ManualEnt(freq: int, modulation: string)

  datatype EventData = NoData | ManualData(freq: int, modulation: string)

  datatype Saved = NotSaved | SavedScan | SavedHold(e: Ent) | SavedManual(e: Ent)

  /** One executed state function: the entry it ended on, how often the cursor had been advanced by then, and
      whether it found a signal (bookkeeping). */
  datatype Rec = Rec(st: St, entry: Ent, cursor: nat, signal: bool)

  datatype State = State(
    cur: St, last: St, pending: bool, data: EventData, external: bool, running: bool,
    entry: Ent, externalHold: bool, manualMode: bool, holdIndex: seq<int>, hits: nat, cursor: nat,
    timeoutStart: int, saved: Saved, log: seq<Rec>)

  /** What the radio and the clock report while a state function runs. */
  datatype Report = Report(signal: bool, locked: bool, delay: int, now: int)

  datatype Request = StartScan | HoldScan(index: seq<int>) | StopScanner | ManualEntry(freq: int, modulation: string)

  datatype Target = Ignored | To(st: St)

  // ---- events -----------------------------------------------------------------------------------

  /** InternalEvent */
  function Post(s: State, st: St, data: EventData): State {
    s.(data := data, pending := true, last := s.cur, cur := st)
  }

  function ScanTable(cur: St): Target {
    match cur
    case Scan => Ignored
    case SaveAll => Ignored
    case Stopped => Ignored
    case _ => To(Scan)
  }

  function HoldTable(cur: St): Target { if cur.Load? || cur.Scan? then To(Hold) else Ignored }

  function StopTable(cur: St): Target { if cur.Stopped? then Ignored else To(SaveAll) }

  function ManualTable(cur: St): Target { if cur.SaveAll? || cur.Stopped? then Ignored else To(Manual) }

  /** ExternalEvent */
  function External(s: State, target: Target, data: EventData): State {
    if target.Ignored? then s else Post(s, target.st, data).(external := true)
  }

  function Ask(s: State, r: Request): State {
    match r
    case StartScan => External(s, ScanTable(s.cur), NoData)
    case HoldScan(index) => External(s.(externalHold := true, holdIndex := index), HoldTable(s.cur), NoData)
    case StopScanner => External(s, StopTable(s.cur), NoData)
    case ManualEntry(freq, modulation) => External(s, ManualTable(s.cur), ManualData(freq, modulation))
  }

  // ---- the answers of the cursor --------------------------------------------------------------------

  /** Real entries keep coming: the cursor does not answer with dummies for ever. */
  ghost predicate Lively(feed: nat -> Ent) {
    && (forall i: nat :: feed(i).Dummy? || feed(i).Listed?)
    && forall i: nat :: RealAfter(feed, i)
  }

  ghost predicate RealAfter(feed: nat -> Ent, i: nat) { exists j: nat :: i <= j && feed(j).Listed? }

  function FirstReal(feed: nat -> Ent, i: nat, j: nat): (r: nat)
    requires i <= j && !feed(j).Dummy?
    ensures i <= r <= j && !feed(r).Dummy? && forall k :: i <= k < r ==> feed(k).Dummy?
    decreases j - i
  {
    if feed(i).Dummy? then FirstReal(feed, i + 1, j) else i
  }

  /** The first real answer from the i-th on. */
  ghost function NextReal(feed: nat -> Ent, i: nat): (r: nat)
    requires Lively(feed)
    ensures i <= r && feed(r).Listed? && forall k :: i <= k < r ==> feed(k).Dummy?
  {
    assert RealAfter(feed, i);
    var j: nat :| i <= j && feed(j).Listed?;
    FirstReal(feed, i, j)
  }

  predicate Known(index: seq<int>, sizes: seq<nat>) {
    2 <= |index| && 0 <= index[0] < |sizes| && 0 <= index[1] < sizes[index[0]]
  }

  // ---- the state functions ------------------------------------------------------------------------

  function HasSignal(e: Ent, r: Report): bool { r.signal && !e.Dummy? }

  function Logged(s: State, st: St, e: Ent, cursor: nat, signal: bool): State {
    s.(log := s.log + [Rec(st, e, cursor, signal)])
  }

  /** ST_Scan up to the entry it looks at: the next one, unless a streak of hits is going on. */
  function Advance(feed: nat -> Ent, s: State): State {
    var hits := if s.cur != s.last then 0 else s.hits;
    var next := hits == 0 || s.cur != s.last;
    s.(manualMode := false, externalHold := false, hits := hits, entry := if next then feed(s.cursor) else s.entry,
       cursor := if next then s.cursor + 1 else s.cursor)
  }

  function RunScan(feed: nat -> Ent, s: State, r: Report): State {
    var s1 := Advance(feed, s);
    var found := HasSignal(s1.entry, r);
    var s2 := s1.(hits := if found then s1.hits + 1 else 0);
    var s3 := Post(s2, if found && s2.hits >= TRIGGER_HITS then Receive else Scan, NoData);
    Logged(s3, Scan, s1.entry, s1.cursor, found)
  }

  /** A hold by index is waiting. */
  predicate Picks(s: State) { s.externalHold && s.holdIndex != [] }

  /** The entry ST_Hold starts on and the cursor then: getEntryByIndex for an index hold. */
  function PickHeld(feed: nat -> Ent, sizes: seq<nat>, s: State): (Ent, nat) {
    if !Picks(s) then (s.entry, s.cursor)
    else if Known(s.holdIndex, sizes) then (Listed(s.holdIndex[0], s.holdIndex[1]), s.cursor)
    else (feed(s.cursor), s.cursor + 1)
  }

  /** No hold on a dummy: on to the next real entry. */
  ghost function LeaveDummy(feed: nat -> Ent, e: Ent, cursor: nat): (Ent, nat)
    requires Lively(feed)
  {
    if e.Dummy? then (feed(NextReal(feed, cursor)), NextReal(feed, cursor) + 1) else (e, cursor)
  }

  ghost function HeldEntry(feed: nat -> Ent, sizes: seq<nat>, s: State): (Ent, nat)
    requires Lively(feed)
  {
    LeaveDummy(feed, PickHeld(feed, sizes, s).0, PickHeld(feed, sizes, s).1)
  }

  /** What ST_Hold posts, if anything, once it is on a real entry. */
  function HoldTarget(s: State, r: Report): Target {
    if HasSignal(s.entry, r) then To(Receive)
    else if s.externalHold then To(Hold)
    else if r.locked then To(Scan)
    else if r.delay != 0 then
      if r.now - s.timeoutStart < r.delay then To(Hold) else if !s.external then To(Scan) else Ignored
    else if !s.external then To(Scan)
    else Ignored
  }

  ghost function RunHold(feed: nat -> Ent, sizes: seq<nat>, s: State, r: Report): State
    requires Lively(feed)
  {
    var (e, cursor) := HeldEntry(feed, sizes, s);
    var s1 := s.(entry := e, cursor := cursor, holdIndex := if Picks(s) then [] else s.holdIndex);
    var target := HoldTarget(s1, r);
    var s2 := if target.Ignored? then s1 else Post(s1, target.st, NoData);
    Logged(s2, Hold, s1.entry, s1.cursor, HasSignal(s1.entry, r))
  }

  /** The lockout branch does not return, so what it posts is overwritten, though not what it does to `last`.
      Losing the signal starts the delay. */
  function RunReceive(s: State, r: Report): State {
    var s1 := if r.locked then Post(s, Scan, NoData) else s;
    var found := HasSignal(s.entry, r);
    var s2 := Post(s1, if found then Receive else Hold, NoData);
    Logged(s2.(timeoutStart := if found then s.timeoutStart else r.now), Receive, s.entry, s.cursor, found)
  }

  function ManualChannel(freq: int, modulation: string): Ent {
    ManualEnt(freq, if modulation == "AM" then "AM" else "NFM")
  }

  function RunManual(s: State, data: EventData): State
    requires data.ManualData?
  {
    var e := ManualChannel(data.freq, data.modulation);
    Logged(Post(s.(entry := e, externalHold := true, manualMode := true), Hold, NoData), Manual, e, s.cursor, false)
  }

  function RunSaveAll(s: State): State {
    var saved := if s.manualMode then SavedManual(s.entry)
                 else if s.externalHold then SavedHold(s.entry)
                 else SavedScan;
    Logged(Post(s.(saved := saved), Stopped, NoData), SaveAll, s.entry, s.cursor, false)
  }

  function RunLoad(s: State): State { Logged(s, Load, s.entry, s.cursor, false) }

  function RunStopped(s: State): State { Logged(s.(running := false), Stopped, s.entry, s.cursor, false) }

  /** The current entry is dereferenced: a hold without index, a receive or a save of a held state needs one. */
  predicate HasEntry(s: State) {
    match s.cur
    case Hold => s.entry != NoEntry || (s.externalHold && s.holdIndex != [])
    case Receive => s.entry != NoEntry
    case SaveAll => s.entry != NoEntry || !(s.externalHold || s.manualMode)
    case _ => true
  }

  predicate CanRun(s: State) {
    s.pending && s.running && HasEntry(s) && (s.cur.Manual? ==> s.data.ManualData?)
  }

  /** One turn of StateEngine with an event pending. */
  ghost function Run(feed: nat -> Ent, sizes: seq<nat>, s: State, r: Report): State
    requires Lively(feed) && CanRun(s)
  {
    var s1 := s.(pending := false, data := NoData);
    var s2 :=
      match s.cur
      case Load => RunLoad(s1)
      case Scan => RunScan(feed, s1, r)
      case Hold => RunHold(feed, sizes, s1, r)
      case Receive => RunReceive(s1, r)
      case Manual => RunManual(s1, s.data)
      case SaveAll => RunSaveAll(s1)
      case Stopped => RunStopped(s1);
    s2.(external := false)
  }

  // ---- invariant ----------------------------------------------------------------------------------

  /** The last k executions were all ST_Scan, finding a signal on this entry without a cursor advance between. */
  ghost predicate Streak(log: seq<Rec>, k: nat, e: Ent, cursor: nat) {
    k <= |log| && forall i :: |log| - k <= i < |log| ==> log[i] == Rec(Scan, e, cursor, true)
  }

  /** The latest run of ST_Scan or ST_Manual, if any, was of ST_Manual. */
  ghost predicate ManualLast(log: seq<Rec>) {
    log != [] && (log[|log| - 1].st.Manual? || (!log[|log| - 1].st.Scan? && ManualLast(log[..|log| - 1])))
  }

  ghost predicate Inv(s: State) {
    && (s.cur.Scan? && s.last.Scan? ==> Streak(s.log, s.hits, s.entry, s.cursor) && s.hits < TRIGGER_HITS)
    && (s.cur.Receive? ==> s.entry != NoEntry && !s.entry.Dummy?)
    && (s.cur.Hold? && s.external ==> s.externalHold)
    && (s.pending || s.cur.Load? || s.cur.Stopped?)
    && (s.cur.Manual? ==> s.data.ManualData?)
    && LogOk(s.log, s.entry) && (s.manualMode <==> ManualLast(s.log))
  }

  ghost predicate LogOk(log: seq<Rec>, e: Ent) {
    && (forall i :: 0 <= i < |log| && (log[i].st.Receive? || log[i].st.Hold?) ==> !log[i].entry.Dummy?)
    && (e == NoEntry ==> forall i :: 0 <= i < |log| ==> !log[i].st.Scan? && !log[i].st.Hold? && !log[i].st.Manual?)
  }

  lemma LogStep(log: seq<Rec>, e: Ent, rec: Rec, e': Ent)
    requires LogOk(log, e) && (rec.st.Receive? || rec.st.Hold? ==> !rec.entry.Dummy?)
    requires if rec.st.Scan? || rec.st.Hold? || rec.st.Manual? then e' != NoEntry else e' == e
    ensures LogOk(log + [rec], e')
  {
  }

  lemma AskKeepsInv(s: State, r: Request)
    requires Inv(s)
    ensures Inv(Ask(s, r))
  {
    hide ManualLast;
  }

  lemma ScanStreak(feed: nat -> Ent, s: State, r: Report)
    requires s.cur.Scan? && (s.last.Scan? ==> Streak(s.log, s.hits, s.entry, s.cursor))
    ensures var s' := RunScan(feed, s, r); Streak(s'.log, s'.hits, s'.entry, s'.cursor)
  {
  }

  lemma ManualLastStep(log: seq<Rec>, rec: Rec)
    ensures ManualLast(log + [rec]) <==> rec.st.Manual? || (!rec.st.Scan? && ManualLast(log))
  {
    assert (log + [rec])[..|log|] == log;
  }

  /** What the state functions leave of the state, besides where they end. */
  lemma ScanKeepsInv(feed: nat -> Ent, sizes: seq<nat>, s: State, r: Report)
    requires Lively(feed) && Inv(s) && CanRun(s) && s.cur.Scan?
    ensures Inv(Run(feed, sizes, s, r))
  {
    var s' := Run(feed, sizes, s, r);
    var rec := s'.log[|s.log|];
    ManualLastStep(s.log, rec);
    assert feed(s.cursor).Dummy? || feed(s.cursor).Listed?;
    ScanStreak(feed, s.(pending := false, data := NoData), r);
    assert s.cur.Scan? && s.last.Scan? && s.hits != 0 ==> s.entry != NoEntry by {
      if s.last.Scan? && s.hits != 0 { assert s.log[|s.log| - 1].st.Scan?; }
    }
    hide ManualLast, Streak;
    LogStep(s.log, s.entry, rec, s'.entry);
    hide LogOk;
  }

  /** The event is used up before its state function runs, and its source forgotten after. */
  function Ready(s: State): State { s.(pending := false, data := NoData) }

  lemma RunIs(feed: nat -> Ent, sizes: seq<nat>, s: State, r: Report)
    requires Lively(feed) && CanRun(s)
    ensures s.cur.Hold? ==> Run(feed, sizes, s, r) == RunHold(feed, sizes, Ready(s), r).(external := false)
    ensures s.cur.Scan? ==> Run(feed, sizes, s, r) == RunScan(feed, Ready(s), r).(external := false)
    ensures s.cur.Receive? ==> Run(feed, sizes, s, r) == RunReceive(Ready(s), r).(external := false)
    ensures s.cur.Manual? ==> Run(feed, sizes, s, r) == RunManual(Ready(s), s.data).(external := false)
    ensures s.cur.SaveAll? ==> Run(feed, sizes, s, r) == RunSaveAll(Ready(s)).(external := false)
    ensures s.cur.Load? ==> Run(feed, sizes, s, r) == RunLoad(Ready(s)).(external := false)
    ensures s.cur.Stopped? ==> Run(feed, sizes, s, r) == RunStopped(Ready(s)).(external := false)
  {
    hide RunHold, RunScan, RunReceive, RunManual, RunSaveAll, RunLoad, RunStopped;
  }

  /** ST_Hold ends up on a real entry. */
  lemma HeldEntryIsReal(feed: nat -> Ent, sizes: seq<nat>, s: State)
    requires Lively(feed) && (s.entry != NoEntry || Picks(s))
    ensures HeldEntry(feed, sizes, s).0 != NoEntry && !HeldEntry(feed, sizes, s).0.Dummy?
  {
    assert feed(s.cursor).Dummy? || feed(s.cursor).Listed?;
  }

  /** What one turn appends to the log, and where it leads when the state is not SCAN. */
  ghost predicate Ends(s: State, s': State) {
    && |s'.log| == |s.log| + 1 && s'.log[..|s.log|] == s.log && s'.log[|s.log|].st == s.cur
    && (!s.cur.Scan? ==>
          && (s'.cur.Scan? ==> s.cur.Hold? && s'.last.Hold? && !s.externalHold)
          && (s'.externalHold <==> s.externalHold || s.cur.Manual?)
          && (s'.cur.Load? ==> s.cur.Load?)
          && (s'.cur.Hold? || s'.cur.Receive? ==> s.cur.Hold? || s.cur.Receive? || s.cur.Manual?))
  }

  lemma HoldEnds(feed: nat -> Ent, sizes: seq<nat>, s: State, r: Report)
    requires Lively(feed) && CanRun(s) && s.cur.Hold?
    ensures Ends(s, Run(feed, sizes, s, r))
  {
    hide Run, Lively, HeldEntry, HasSignal, Picks;
    RunIs(feed, sizes, s, r);
  }

  lemma ScanEnds(feed: nat -> Ent, sizes: seq<nat>, s: State, r: Report)
    requires Lively(feed) && CanRun(s) && s.cur.Scan?
    ensures Ends(s, Run(feed, sizes, s, r))
  {
    hide Run, Lively, HasSignal;
    RunIs(feed, sizes, s, r);
  }

  lemma RunEnds(feed: nat -> Ent, sizes: seq<nat>, s: State, r: Report)
    requires Lively(feed) && CanRun(s)
    ensures Ends(s, Run(feed, sizes, s, r))
  {
    hide Run, Lively, Ends;
    if s.cur.Hold? {
      HoldEnds(feed, sizes, s, r);
    } else if s.cur.Scan? {
      ScanEnds(feed, sizes, s, r);
    } else if s.cur.Receive? {
      ReceiveEnds(feed, sizes, s, r);
    } else {
      RestEnds(feed, sizes, s, r);
    }
  }

  lemma ReceiveEnds(feed: nat -> Ent, sizes: seq<nat>, s: State, r: Report)
    requires Lively(feed) && CanRun(s) && s.cur.Receive?
    ensures Ends(s, Run(feed, sizes, s, r))
  {
    hide Run, Lively, HasSignal;
    RunIs(feed, sizes, s, r);
  }

  lemma RestEnds(feed: nat -> Ent, sizes: seq<nat>, s: State, r: Report)
    requires Lively(feed) && CanRun(s) && !s.cur.Hold? && !s.cur.Scan? && !s.cur.Receive?
    ensures Ends(s, Run(feed, sizes, s, r))
  {
    hide Run, Lively, ManualChannel;
    RunIs(feed, sizes, s, r);
  }

  lemma HoldKeepsInv(feed: nat -> Ent, sizes: seq<nat>, s: State, r: Report)
    requires Lively(feed) && Inv(s) && CanRun(s) && s.cur.Hold?
    ensures Inv(Run(feed, sizes, s, r))
  {
    hide Run, Lively, HeldEntry, ManualLast, Streak, LogOk;
    RunIs(feed, sizes, s, r);
    HeldEntryIsReal(feed, sizes, Ready(s));
    var s' := RunHold(feed, sizes, Ready(s), r);
    var rec := s'.log[|s.log|];
    ManualLastStep(s.log, rec);
    LogStep(s.log, s.entry, rec, s'.entry);
  }

  lemma ReceiveKeepsInv(feed: nat -> Ent, sizes: seq<nat>, s: State, r: Report)
    requires Lively(feed) && Inv(s) && CanRun(s) && s.cur.Receive?
    ensures Inv(Run(feed, sizes, s, r))
  {
    hide Run, Lively, ManualLast, Streak, LogOk;
    RunIs(feed, sizes, s, r);
    var s' := RunReceive(Ready(s), r);
    var rec := s'.log[|s.log|];
    ManualLastStep(s.log, rec);
    LogStep(s.log, s.entry, rec, s'.entry);
  }

  lemma RestKeepsInv(feed: nat -> Ent, sizes: seq<nat>, s: State, r: Report)
    requires Lively(feed) && Inv(s) && CanRun(s) && !s.cur.Scan? && !s.cur.Hold? && !s.cur.Receive?
    ensures Inv(Run(feed, sizes, s, r))
  {
    hide Run, Lively, RunScan, RunHold, RunReceive, ManualLast, Streak, LogOk;
    RunIs(feed, sizes, s, r);
    var s' := Run(feed, sizes, s, r);
    var rec := s'.log[|s.log|];
    ManualLastStep(s.log, rec);
    LogStep(s.log, s.entry, rec, s'.entry);
  }

  lemma RunKeepsInv(feed: nat -> Ent, sizes: seq<nat>, s: State, r: Report)
    requires Lively(feed) && Inv(s) && CanRun(s)
    ensures Inv(Run(feed, sizes, s, r))
  {
    if s.cur.Scan? {
      ScanKeepsInv(feed, sizes, s, r);
    } else if s.cur.Hold? {
      HoldKeepsInv(feed, sizes, s, r);
    } else if s.cur.Receive? {
      ReceiveKeepsInv(feed, sizes, s, r);
    } else {
      RestKeepsInv(feed, sizes, s, r);
    }
  }

  // ---- runs ---------------------------------------------------------------------------------------

  datatype Choice = Event(request: Request) | Engine(report: Report)

  /** An engine turn waits for an event; a run never turns the engine onto a missing entry. */
  predicate Allowed(s: State, c: Choice) { c.Engine? ==> CanRun(s) }

  ghost function Step(feed: nat -> Ent, sizes: seq<nat>, s: State, c: Choice): State
    requires Lively(feed) && Allowed(s, c)
  {
    match c
    case Event(request) => Ask(s, request)
    case Engine(report) => Run(feed, sizes, s, report)
  }

  lemma StepKeepsInv(feed: nat -> Ent, sizes: seq<nat>, s: State, c: Choice)
    requires Lively(feed) && Inv(s) && Allowed(s, c)
    ensures Inv(Step(feed, sizes, s, c))
  {
    match c
    case Event(request) => AskKeepsInv(s, request);
    case Engine(report) => RunKeepsInv(feed, sizes, s, report);
  }

  /** As start() leaves the machine: the load event is pending. */
  predicate Initial(s: State) {
    && s.cur.Load? && s.last.Load? && s.pending && s.running && !s.external && s.entry == NoEntry
    && !s.externalHold && !s.manualMode && s.holdIndex == [] && s.hits == 0 && s.log == []
  }

  /** t is reached from s by the choices of `run`. */
  ghost predicate Reaches(feed: nat -> Ent, sizes: seq<nat>, s: State, run: seq<Choice>, t: State)
    requires Lively(feed)
    decreases |run|
  {
    if run == [] then s == t
    else Allowed(s, run[0]) && Reaches(feed, sizes, Step(feed, sizes, s, run[0]), run[1..], t)
  }

  lemma {:induction false} ReachesInv(feed: nat -> Ent, sizes: seq<nat>, s: State, run: seq<Choice>, t: State)
    requires Lively(feed) && Inv(s) && Reaches(feed, sizes, s, run, t)
    ensures Inv(t)
    decreases |run|
  {
    if run != [] {
      StepKeepsInv(feed, sizes, s, run[0]);
      ReachesInv(feed, sizes, Step(feed, sizes, s, run[0]), run[1..], t);
    }
  }

  /** In every run, scanning turns into receiving only after 25 consecutive executions of ST_Scan found a signal
      on one and the same real entry, got from one cursor advance. */
  lemma ReceiveAfterStreak(feed: nat -> Ent, sizes: seq<nat>, s0: State, run: seq<Choice>, s: State, r: Report)
    requires Lively(feed) && Initial(s0) && Reaches(feed, sizes, s0, run, s)
    requires CanRun(s) && s.cur.Scan? && Run(feed, sizes, s, r).cur.Receive?
    ensures var s' := Run(feed, sizes, s, r);
      Streak(s'.log, TRIGGER_HITS, s'.entry, s'.cursor) && s'.entry.Listed?
      && 0 < s'.cursor && s'.entry == feed(s'.cursor - 1)
  {
    ReachesInv(feed, sizes, s0, run, s);
    RunKeepsInv(feed, sizes, s, r);
    hide Initial, Reaches;
    ScanStreak(feed, s.(pending := false, data := NoData), r);
    EntryIsAnswer(feed, sizes, s0, run, s);
  }

  /** While ST_Scan repeats on an entry, it is the cursor's latest answer. */
  ghost predicate Latest(feed: nat -> Ent, s: State) {
    s.cur.Scan? && s.last.Scan? && s.hits != 0 ==> 0 < s.cursor && s.entry == feed(s.cursor - 1)
  }

  lemma {:induction false} LatestKept(feed: nat -> Ent, sizes: seq<nat>, s: State, run: seq<Choice>, t: State)
    requires Lively(feed) && Latest(feed, s) && Reaches(feed, sizes, s, run, t)
    ensures Latest(feed, t)
    decreases |run|
  {
    if run != [] {
      LatestStep(feed, sizes, s, run[0]);
      LatestKept(feed, sizes, Step(feed, sizes, s, run[0]), run[1..], t);
    }
  }

  lemma ScanLatest(feed: nat -> Ent, s: State, r: Report)
    requires s.cur.Scan? && Latest(feed, s)
    ensures Latest(feed, RunScan(feed, s, r))
  {
  }

  lemma AskLatest(feed: nat -> Ent, s: State, r: Request)
    requires Latest(feed, s)
    ensures Latest(feed, Ask(s, r))
  {
  }

  lemma RunLatest(feed: nat -> Ent, sizes: seq<nat>, s: State, r: Report)
    requires Lively(feed) && CanRun(s) && Latest(feed, s)
    ensures Latest(feed, Run(feed, sizes, s, r))
  {
    if s.cur.Scan? {
      RunIs(feed, sizes, s, r);
      hide Run, Lively, RunScan;
      ScanLatest(feed, Ready(s), r);
    } else {
      RunEnds(feed, sizes, s, r);
      hide Run, Lively;
    }
  }

  lemma LatestStep(feed: nat -> Ent, sizes: seq<nat>, s: State, c: Choice)
    requires Lively(feed) && Latest(feed, s) && Allowed(s, c)
    ensures Latest(feed, Step(feed, sizes, s, c))
  {
    hide Run, Ask, Latest, Lively;
    match c
    case Event(request) => AskLatest(feed, s, request);
    case Engine(report) => RunLatest(feed, sizes, s, report);
  }

  lemma EntryIsAnswer(feed: nat -> Ent, sizes: seq<nat>, s0: State, run: seq<Choice>, s: State)
    requires Lively(feed) && Reaches(feed, sizes, s0, run, s) && (Initial(s0) || s0.cur.Load?)
    ensures Latest(feed, s)
  {
    LatestKept(feed, sizes, s0, run, s);
  }

  /** No run receives or completes a hold on a dummy. */
  lemma NeverOnDummy(feed: nat -> Ent, sizes: seq<nat>, s0: State, run: seq<Choice>, s: State)
    requires Lively(feed) && Initial(s0) && Reaches(feed, sizes, s0, run, s)
    ensures s.cur.Receive? ==> s.entry != NoEntry && !s.entry.Dummy?
    ensures forall i :: 0 <= i < |s.log| && (s.log[i].st.Receive? || s.log[i].st.Hold?) ==> !s.log[i].entry.Dummy?
  {
    ReachesInv(feed, sizes, s0, run, s);
  }

  /** Somebody asked to hold or to tune by hand, and nobody to scan since. */
  ghost predicate Held(s: State) {
    match s.cur
    case Load => false
    case Scan => false
    case Hold => s.externalHold
    case Receive => s.externalHold
    case _ => true
  }

  lemma RequestHolds(s: State, r: Request)
    requires r.HoldScan? || r.ManualEntry?
    ensures Held(Ask(s, r))
  {
  }

  lemma HeldStep(feed: nat -> Ent, sizes: seq<nat>, s: State, c: Choice)
    requires Lively(feed) && Allowed(s, c) && Held(s) && c != Event(StartScan)
    ensures var s' := Step(feed, sizes, s, c);
      && Held(s')
      && if c.Event? then s'.log == s.log
         else |s'.log| == |s.log| + 1 && s'.log[..|s.log|] == s.log && !s'.log[|s.log|].st.Scan?
  {
    hide Run, Lively, Ask;
    match c
    case Event(request) => HeldAsk(s, request);
    case Engine(report) => RunEnds(feed, sizes, s, report);
  }

  lemma HeldAsk(s: State, r: Request)
    requires Held(s) && r != StartScan
    ensures Held(Ask(s, r)) && Ask(s, r).log == s.log
  {
  }

  /** From a hold or manual request on, no ST_Scan executes before a startScan event. */
  lemma {:induction false} NoScanWhileHeld(feed: nat -> Ent, sizes: seq<nat>, s: State, run: seq<Choice>, t: State)
    requires Lively(feed) && Held(s) && Reaches(feed, sizes, s, run, t) && Event(StartScan) !in run
    ensures Held(t) && s.log <= t.log && forall i :: |s.log| <= i < |t.log| ==> !t.log[i].st.Scan?
    decreases |run|
  {
    hide Held, Step, Lively;
    if run != [] {
      HeldStep(feed, sizes, s, run[0]);
      var s1 := Step(feed, sizes, s, run[0]);
      NoScanWhileHeld(feed, sizes, s1, run[1..], t);
    }
  }

  /** The engine never stalls: every executed SCAN, HOLD, RECEIVE, MANUAL or SAVEALL leaves an event pending,
      the two guards on the event's source notwithstanding. */
  lemma NeverStalls(feed: nat -> Ent, sizes: seq<nat>, s0: State, run: seq<Choice>, s: State, r: Report)
    requires Lively(feed) && Initial(s0) && Reaches(feed, sizes, s0, run, s) && CanRun(s)
    requires !s.cur.Load? && !s.cur.Stopped?
    ensures Run(feed, sizes, s, r).pending
  {
    hide Run, Lively, Reaches, HeldEntry, Picks;
    ReachesInv(feed, sizes, s0, run, s);
    RunKeepsInv(feed, sizes, s, r);
    RunIs(feed, sizes, s, r);
  }

  /** Once a SCAN, HOLD or MANUAL has executed there is an entry, and no later engine turn misses one. */
  lemma EntryStays(feed: nat -> Ent, sizes: seq<nat>, s0: State, run: seq<Choice>, s: State, i: nat)
    requires Lively(feed) && Initial(s0) && Reaches(feed, sizes, s0, run, s)
    requires i < |s.log| && (s.log[i].st.Scan? || s.log[i].st.Hold? || s.log[i].st.Manual?)
    ensures s.entry != NoEntry && HasEntry(s)
  {
    ReachesInv(feed, sizes, s0, run, s);
  }

  /** The delay of the entry, if it has one, has passed since the signal was lost. */
  predicate DelayOver(s: State, r: Report) { r.delay == 0 || r.delay <= r.now - s.timeoutStart }

  /** What ends a hold: a signal turns it into receiving; else it goes on while somebody asked for it, and by
      itself it goes back to scanning exactly when the entry is locked out or its delay, if any, is over. The
      guards on the event's source never come into it. */
  lemma HoldDecides(feed: nat -> Ent, sizes: seq<nat>, s: State, r: Report)
    requires Lively(feed) && Inv(s) && CanRun(s) && s.cur.Hold?
    ensures var s' := Run(feed, sizes, s, r);
      && (s'.cur.Receive? <==> r.signal)
      && (s'.cur.Scan? <==> !r.signal && !s.externalHold && (r.locked || DelayOver(s, r)))
      && (s'.cur.Receive? || s'.cur.Scan? || s'.cur.Hold?)
      && s'.externalHold == s.externalHold && s'.timeoutStart == s.timeoutStart
      && (!Picks(s) && s.entry.Listed? ==> s'.entry == s.entry)
  {
    hide Lively, HeldEntry, Inv;
    assert s.external ==> s.externalHold by { FairGuard(s); }
    HeldEntryIsReal(feed, sizes, Ready(s));
    HeldEntryStays(feed, sizes, Ready(s));
    hide Run;
    RunIs(feed, sizes, s, r);
  }

  lemma FairGuard(s: State)
    requires Inv(s)
    ensures s.cur.Hold? && s.external ==> s.externalHold
  {
  }

  lemma HeldEntryStays(feed: nat -> Ent, sizes: seq<nat>, s: State)
    requires Lively(feed)
    ensures !Picks(s) && !s.entry.Dummy? ==> HeldEntry(feed, sizes, s).0 == s.entry
  {
  }

  /** Nothing but engine turns that find no signal on an unlocked entry whose delay, running from `start`, is not
      over. */
  ghost predicate Waiting(run: seq<Choice>, start: int) {
    forall i :: 0 <= i < |run| ==> run[i].Engine? && Silent(run[i].report, start) && run[i].report.delay != 0
  }

  predicate Silent(r: Report, start: int) { !r.signal && !r.locked && r.now - start < r.delay }

  lemma {:induction false} HoldWaits(feed: nat -> Ent, sizes: seq<nat>, s: State, run: seq<Choice>, t: State)
    requires Lively(feed) && Inv(s) && CanRun(s) && s.cur.Hold? && !s.externalHold && s.entry.Listed?
    requires Waiting(run, s.timeoutStart) && Reaches(feed, sizes, s, run, t)
    ensures Inv(t) && CanRun(t) && t.cur.Hold? && !t.externalHold
    ensures t.entry == s.entry && t.cursor == s.cursor && t.timeoutStart == s.timeoutStart
    decreases |run|
  {
    if run != [] {
      var s1 := Run(feed, sizes, s, run[0].report);
      HoldDecides(feed, sizes, s, run[0].report);
      RunKeepsInv(feed, sizes, s, run[0].report);
      HoldWaits(feed, sizes, s1, run[1..], t);
    }
  }

  /** An entry whose signal is lost at time `lost.now` is held, and no other looked at, for as long as its delay
      lasts from then on; the first turn after it goes back to scanning, which takes up the walk where it was. */
  lemma DelayWaitedOut(feed: nat -> Ent, sizes: seq<nat>, s: State, lost: Report, run: seq<Choice>, t: State,
                       over: Report, r: Report)
    requires Lively(feed) && Inv(s) && CanRun(s) && s.cur.Receive? && !s.externalHold && s.entry.Listed? && !lost.signal
    requires Waiting(run, lost.now) && Reaches(feed, sizes, Run(feed, sizes, s, lost), run, t)
    requires !over.signal && !over.locked && (over.delay == 0 || over.delay <= over.now - lost.now)
    ensures t.cur.Hold? && t.entry == s.entry && t.cursor == s.cursor && CanRun(t)
    ensures var u := Run(feed, sizes, t, over);
      u.cur.Scan? && CanRun(u) && Run(feed, sizes, u, r).entry == feed(s.cursor)
  {
    hide Lively, Reaches, HeldEntry, Waiting, RunHold, Inv;
    var s1 := Run(feed, sizes, s, lost);
    RunIs(feed, sizes, s, lost);
    RunKeepsInv(feed, sizes, s, lost);
    assert CanRun(s1) && s1.timeoutStart == lost.now && s1.entry == s.entry && s1.cursor == s.cursor;
    HoldWaits(feed, sizes, s1, run, t);
    ScanResumes(feed, sizes, t, over, r);
  }

  lemma ScanResumes(feed: nat -> Ent, sizes: seq<nat>, s: State, over: Report, r: Report)
    requires Lively(feed) && Inv(s) && CanRun(s) && s.cur.Hold? && !s.externalHold && s.entry.Listed?
    requires !over.signal && !over.locked && DelayOver(s, over)
    ensures var u := Run(feed, sizes, s, over);
      u.cur.Scan? && CanRun(u) && Run(feed, sizes, u, r).entry == feed(s.cursor)
  {
    HoldDecides(feed, sizes, s, over);
  }

  // ---- what is saved --------------------------------------------------------------------------------

  /** What a save records, in terms of the run: a manual state when ST_Manual ran after the last ST_Scan, else a
      held one when a hold was asked for, else scanning. */
  lemma SavedState(feed: nat -> Ent, sizes: seq<nat>, s0: State, run: seq<Choice>, s: State, r: Report)
    requires Lively(feed) && Initial(s0) && Reaches(feed, sizes, s0, run, s) && CanRun(s) && s.cur.SaveAll?
    ensures Run(feed, sizes, s, r).saved ==
      if ManualLast(s.log) then SavedManual(s.entry) else if s.externalHold then SavedHold(s.entry) else SavedScan
  {
    ReachesInv(feed, sizes, s0, run, s);
    hide ManualLast;
  }

  /** A hold on a list entry is saved as such exactly when no manual entry came after the last scan: holding by
      index from a manual state leaves the manual mode on, and the list entry is saved as a manual one. */
  lemma HoldSavedIff(feed: nat -> Ent, sizes: seq<nat>, s0: State, run: seq<Choice>, s: State, r: Report)
    requires Lively(feed) && Initial(s0) && Reaches(feed, sizes, s0, run, s) && CanRun(s) && s.cur.SaveAll?
    requires s.entry.Listed? && s.externalHold
    ensures Run(feed, sizes, s, r).saved == SavedHold(s.entry) <==> !ManualLast(s.log)
    ensures Run(feed, sizes, s, r).saved == SavedManual(s.entry) <==> ManualLast(s.log)
  {
    SavedState(feed, sizes, s0, run, s, r);
  }

  /** Such a run: load the list, tune by hand, hold entry (0, 0) while that is pending, let it take hold, and stop. */
  lemma IndexHoldSavedAsManual(feed: nat -> Ent, s: State, quiet: Report)
    requires Lively(feed) && Initial(s) && quiet == Report(false, false, 0, 0)
    ensures exists run, t :: Reaches(feed, [1], s, run, t) && t.saved == SavedManual(Listed(0, 0))
  {
    var s0 := Run(feed, [1], s, quiet);
    var s1 := Ask(s0, ManualEntry(100000000, "NFM"));
    var s2 := Ask(s1, HoldScan([0, 0]));
    var t := ManualThenHold(feed, s2, quiet);
    hide Run, Ask;
    var e := Engine(quiet);
    var tail := [e, e, Event(StopScanner), e];
    Extend(feed, [1], s1, Event(HoldScan([0, 0])), tail, t);
    Extend(feed, [1], s0, Event(ManualEntry(100000000, "NFM")), [Event(HoldScan([0, 0]))] + tail, t);
    Extend(feed, [1], s, e, [Event(ManualEntry(100000000, "NFM"))] + ([Event(HoldScan([0, 0]))] + tail), t);
  }

  lemma ManualThenHold(feed: nat -> Ent, s: State, quiet: Report) returns (t: State)
    requires Lively(feed) && quiet == Report(false, false, 0, 0) && CanRun(s)
    requires s.cur.Manual? && s.holdIndex == [0, 0] && s.data == ManualData(100000000, "NFM")
    ensures t.saved == SavedManual(Listed(0, 0))
    ensures Reaches(feed, [1], s, [Engine(quiet), Engine(quiet), Event(StopScanner), Engine(quiet)], t)
  {
    var e := Engine(quiet);
    var s1 := Run(feed, [1], s, quiet);
    assert s1.manualMode && s1.externalHold && s1.cur.Hold? && s1.holdIndex == [0, 0] && CanRun(s1);
    var s2 := Run(feed, [1], s1, quiet);
    assert s2.manualMode && s2.cur.Hold? && s2.entry == Listed(0, 0) && s2.running;
    var s3 := Ask(s2, StopScanner);
    assert s3.manualMode && s3.cur.SaveAll? && s3.entry == Listed(0, 0) && CanRun(s3);
    t := Run(feed, [1], s3, quiet);
    assert t.saved == SavedManual(Listed(0, 0));
    hide Run, Ask;
    assert Reaches(feed, [1], t, [], t);
    Extend(feed, [1], s3, e, [], t);
    Extend(feed, [1], s2, Event(StopScanner), [e] + [], t);
    Extend(feed, [1], s1, e, [Event(StopScanner)] + ([e] + []), t);
    Extend(feed, [1], s, e, [e] + ([Event(StopScanner)] + ([e] + [])), t);
    assert [e] + ([e] + ([Event(StopScanner)] + ([e] + []))) == [e, e, Event(StopScanner), e];
  }

  lemma Extend(feed: nat -> Ent, sizes: seq<nat>, s: State, c: Choice, run: seq<Choice>, t: State)
    requires Lively(feed) && Allowed(s, c) && Reaches(feed, sizes, Step(feed, sizes, s, c), run, t)
    ensures Reaches(feed, sizes, s, [c] + run, t)
  {
    assert ([c] + run)[1..] == run;
  }
}
