/** Systems and their entries as property trees (scan/RadioSystem.cpp, scan/Entry.h): writing a database and
    reading it back, and resuming a saved scanner state on what was read. Trees are maps from keys to values;
    reading a number asks for an int, so one outside 32 bits counts as missing. */
module RadioSystem {
  import M = ScannerMachine
  import T = ScannerTurns

  datatype Kind = FM | AM | PL(tone: string) | DC(code: string)

  /** An entry with its place: system index and index in the system. */
  datatype Entry = Entry(kind: Kind, freq: int, tag: string, locked: bool, delay: int, sys: nat, idx: nat)

  datatype Value = Text(s: string) | Num(n: int) | Flag(b: bool)

  datatype Tree = Tree(values: map<string, Value>, channels: seq<Tree>)

  datatype Option<T> = None | Some(value: T)

  const INT_MAX: int := 0x7FFF_FFFF

  predicate IsInt(n: int) { -INT_MAX - 1 <= n <= INT_MAX }

  // ---- reading values -----------------------------------------------------------------------------

  function GetText(t: Tree, key: string, default: string): string {
    if key in t.values && t.values[key].Text? then t.values[key].s else default
  }

  function GetInt(t: Tree, key: string, default: int): int {
    if key in t.values && t.values[key].Num? && IsInt(t.values[key].n) then t.values[key].n else default
  }

  function GetFlag(t: Tree, key: string, default: bool): bool {
    if key in t.values && t.values[key].Flag? then t.values[key].b else default
  }

  // ---- entries ------------------------------------------------------------------------------------

  function TypeName(k: Kind): string {
    match k
    case FM => "fmc"
    case AM => "amc"
    case PL(_) => "plc"
    case DC(_) => "dcc"
  }

  /** What an entry's constructors, and later its lockout, put in its tree. */
  function EntryTree(e: Entry): Tree {
    var common := map["tag" := Text(e.tag), "lockout" := Flag(e.locked), "delay" := Num(e.delay), "freq" := Num(e.freq),
                      "chantype" := Text(TypeName(e.kind))];
    Tree(match e.kind
         case FM => common
         case AM => common
         case PL(tone) => common["tone" := Text(tone)]
         case DC(code) => common["code" := Text(code)], [])
  }

  /** makeEntry: one maker for each channel type, none for any other; no entry without a frequency. */
  function MakeEntry(t: Tree): Option<Entry> {
    var freq := GetInt(t, "freq", 0);
    var typeName := GetText(t, "chantype", "");
    if freq == 0 || !(typeName == "fmc" || typeName == "amc" || typeName == "plc" || typeName == "dcc") then None
    else
      var kind := if typeName == "fmc" then FM else if typeName == "amc" then AM
                  else if typeName == "plc" then PL(GetText(t, "tone", "")) else DC(GetText(t, "code", ""));
      Some(Entry(kind, freq, GetText(t, "tag", ""), GetFlag(t, "lockout", false), GetInt(t, "delay", 0), 0, 0))
  }

  /** The entries a maker can read back. */
  predicate Loadable(e: Entry) { e.freq != 0 && IsInt(e.freq) }

  /** Writing an entry and making one from the tree gives the same entry, without a place yet, or nothing when
      its frequency is 0 or does not fit an int. */
  lemma EntryRoundTrip(e: Entry)
    requires IsInt(e.delay)
    ensures MakeEntry(EntryTree(e)) == if Loadable(e) then Some(e.(sys := 0, idx := 0)) else None
  {
    var t := EntryTree(e);
    assert "freq" in t.values && t.values["freq"] == Num(e.freq);
    assert "chantype" in t.values && t.values["chantype"] == Text(TypeName(e.kind));
    assert "tag" in t.values && "lockout" in t.values && "delay" in t.values;
    match e.kind
    case PL(tone) => assert t.values["tone"] == Text(tone);
    case DC(code) => assert t.values["code"] == Text(code);
    case _ =>
  }

  /** On whatever tree, written by PiScan or not: an entry is made if and only if the tree has a frequency that is a
      non-zero int and a type that is known. Whatever else is missing is empty, false or 0. */
  lemma MakeEntryIff(t: Tree)
    ensures MakeEntry(t).Some? <==>
      && "freq" in t.values && t.values["freq"].Num? && IsInt(t.values["freq"].n) && t.values["freq"].n != 0
      && "chantype" in t.values
      && t.values["chantype"] in {Text("fmc"), Text("amc"), Text("plc"), Text("dcc")}
    ensures MakeEntry(t).Some? ==>
      var e, tag, lockout := MakeEntry(t).value, "tag", "lockout";
      && Num(e.freq) == t.values["freq"]
      && (tag !in t.values ==> e.tag == "") && (tag in t.values && t.values[tag].Text? ==> Text(e.tag) == t.values[tag])
      && (lockout !in t.values ==> !e.locked)
      && (lockout in t.values && t.values[lockout].Flag? ==> Flag(e.locked) == t.values[lockout])
      && ("delay" !in t.values ==> e.delay == 0)
      && ("delay" in t.values && t.values["delay"].Num? && IsInt(t.values["delay"].n) ==>
            Num(e.delay) == t.values["delay"])
    ensures MakeEntry(t).Some? ==>
      var kind, chantype := MakeEntry(t).value.kind, t.values["chantype"];
      && (kind == FM <==> chantype == Text("fmc")) && (kind == AM <==> chantype == Text("amc"))
      && (kind.PL? <==> chantype == Text("plc")) && (kind.DC? <==> chantype == Text("dcc"))
      && (kind.PL? && "tone" !in t.values ==> kind.tone == "")
      && (kind.PL? && "tone" in t.values && t.values["tone"].Text? ==> Text(kind.tone) == t.values["tone"])
      && (kind.DC? && "code" !in t.values ==> kind.code == "")
      && (kind.DC? && "code" in t.values && t.values["code"].Text? ==> Text(kind.code) == t.values["code"])
  {
    TypesDiffer();
  }

  lemma TypesDiffer()
    ensures "fmc" != "amc" && "fmc" != "plc" && "fmc" != "dcc" && "amc" != "plc" && "amc" != "dcc" && "plc" != "dcc"
  {
    assert "fmc"[0] == 'f' && "amc"[0] == 'a' && "plc"[0] == 'p' && "dcc"[0] == 'd';
  }

  // ---- systems ------------------------------------------------------------------------------------

  class AnalogSystem {
    var tag: string
    var lockedOut: bool
    var sysIndex: nat
    var entries: seq<Entry>

    /** Every entry knows where it is. */
    ghost predicate Valid()
      reads this
    {
      Placed(entries, sysIndex)
    }

    /** Reads the system back, channel by channel; what no maker makes an entry of is passed over. */
    constructor (pt: Tree, index: nat)
      ensures Valid() && sysIndex == index && tag == GetText(pt, "tag", "")
          && lockedOut == GetFlag(pt, "lockout", false)
      ensures entries == Rebuilt(pt.channels, index)
    {
      tag, lockedOut, sysIndex, entries := GetText(pt, "tag", ""), GetFlag(pt, "lockout", false), index, [];
      new;
      for i := 0 to |pt.channels|
        invariant Valid() && sysIndex == index && tag == GetText(pt, "tag", "")
            && lockedOut == GetFlag(pt, "lockout", false)
        invariant entries == Rebuilt(pt.channels[..i], index)
      {
        var made := MakeEntry(pt.channels[i]);
        assert pt.channels[..i + 1][..i] == pt.channels[..i];
        if made.Some? { AddEntry(made.value); }
      }
      assert pt.channels[..|pt.channels|] == pt.channels;
    }

    method AddEntry(e: Entry)
      requires Valid()
      modifies this`entries
      ensures Valid() && entries == old(entries) + [e.(sys := sysIndex, idx := |old(entries)|)]
    {
      entries := entries + [e.(sys := sysIndex, idx := |entries|)];
    }

    method GetPropertyTree() returns (pt: Tree)
      ensures pt == SystemTree(tag, lockedOut, entries)
    {
      var channels: seq<Tree> := [];
      for i := 0 to |entries|
        invariant channels == Trees(entries[..i])
      {
        channels := channels + [EntryTree(entries[i])];
        assert entries[..i + 1][..i] == entries[..i];
      }
      assert entries[..|entries|] == entries;
      pt := Tree(map["systype" := Text("analog"), "tag" := Text(tag), "lockout" := Flag(lockedOut)], channels);
    }
  }

  ghost predicate Placed(entries: seq<Entry>, index: nat) {
    forall i :: 0 <= i < |entries| ==> entries[i].sys == index && entries[i].idx == i
  }

  function Trees(entries: seq<Entry>): seq<Tree> {
    if entries == [] then [] else Trees(entries[..|entries| - 1]) + [EntryTree(entries[|entries| - 1])]
  }

  function SystemTree(tag: string, lockedOut: bool, entries: seq<Entry>): Tree {
    Tree(map["systype" := Text("analog"), "tag" := Text(tag), "lockout" := Flag(lockedOut)], Trees(entries))
  }

  /** The entries the constructor appends for these channels. */
  function Rebuilt(channels: seq<Tree>, index: nat): seq<Entry> {
    if channels == [] then []
    else
      var before := Rebuilt(channels[..|channels| - 1], index);
      match MakeEntry(channels[|channels| - 1])
      case None => before
      case Some(e) => before + [e.(sys := index, idx := |before|)]
  }

  /** The entries that survive, moved up over those that do not. */
  function Surviving(entries: seq<Entry>): seq<Entry> {
    if entries == [] then []
    else
      var before := Surviving(entries[..|entries| - 1]);
      var e := entries[|entries| - 1];
      if Loadable(e) then before + [e.(idx := |before|)] else before
  }

  /** The channels an entry can be made of. */
  function Readable(channels: seq<Tree>): seq<Tree> {
    if channels == [] then []
    else
      var n := |channels| - 1;
      Readable(channels[..n]) + if MakeEntry(channels[n]).Some? then [channels[n]] else []
  }

  /** The others are as if they were not there: the entries made are numbered without them. */
  lemma {:induction false} UnreadablePassedOver(channels: seq<Tree>, index: nat)
    ensures |Rebuilt(channels, index)| == |Readable(channels)|
    ensures forall i :: 0 <= i < |Readable(channels)| ==>
      var made := MakeEntry(Readable(channels)[i]);
      made.Some? && Rebuilt(channels, index)[i] == made.value.(sys := index, idx := i)
  {
    hide MakeEntry;
    if channels != [] { UnreadablePassedOver(channels[..|channels| - 1], index); }
  }

  ghost predicate AllLoadable(entries: seq<Entry>) { forall i :: 0 <= i < |entries| ==> Loadable(entries[i]) }

  ghost predicate IntDelays(entries: seq<Entry>) { forall i :: 0 <= i < |entries| ==> IsInt(entries[i].delay) }

  /** Writing a system and reading it back keeps exactly the loadable entries, in order. */
  lemma {:induction false} SystemRoundTrip(entries: seq<Entry>, index: nat)
    requires Placed(entries, index) && IntDelays(entries)
    ensures Rebuilt(Trees(entries), index) == Surviving(entries)
  {
    if entries != [] {
      var n := |entries| - 1;
      var ts := Trees(entries);
      assert ts[..n] == Trees(entries[..n]) by { TreesLength(entries[..n]); }
      TreesLength(entries);
      SystemRoundTrip(entries[..n], index);
      EntryRoundTrip(entries[n]);
    }
  }

  lemma {:induction false} TreesLength(entries: seq<Entry>)
    ensures |Trees(entries)| == |entries|
  {
    if entries != [] { TreesLength(entries[..|entries| - 1]); }
  }

  lemma {:induction false} SurvivingLength(entries: seq<Entry>)
    ensures |Surviving(entries)| <= |entries|
    ensures |Surviving(entries)| == |entries| ==> AllLoadable(entries)
  {
    if entries != [] {
      var n := |entries| - 1;
      SurvivingLength(entries[..n]);
      assert forall i :: 0 <= i < n ==> entries[..n][i] == entries[i];
    }
  }

  lemma {:induction false} AllSurvive(entries: seq<Entry>, index: nat)
    requires Placed(entries, index) && AllLoadable(entries)
    ensures Surviving(entries) == entries
  {
    if entries != [] {
      var n := |entries| - 1;
      AllSurvive(entries[..n], index);
      assert entries == entries[..n] + [entries[n]];
    }
  }

  /** Nothing is lost exactly when every frequency is a non-zero int. */
  lemma LosslessIff(entries: seq<Entry>, index: nat)
    requires Placed(entries, index) && IntDelays(entries)
    ensures Rebuilt(Trees(entries), index) == entries <==> AllLoadable(entries)
  {
    SystemRoundTrip(entries, index);
    SurvivingLength(entries);
    if AllLoadable(entries) { AllSurvive(entries, index); }
  }

  // ---- the whole database ---------------------------------------------------------------------------

  datatype System = System(tag: string, lockedOut: bool, entries: seq<Entry>)

  ghost predicate Database(db: seq<System>) {
    forall i :: 0 <= i < |db| ==> Placed(db[i].entries, i) && IntDelays(db[i].entries)
  }

  function ReadSystem(t: Tree, index: nat): System {
    System(GetText(t, "tag", ""), GetFlag(t, "lockout", false), Rebuilt(t.channels, index))
  }

  /** populateFromFile: only systems of a known type are added, each under the next index. */
  function ReadAll(ts: seq<Tree>): seq<System> {
    if ts == [] then []
    else
      var before := ReadAll(ts[..|ts| - 1]);
      var t := ts[|ts| - 1];
      if GetText(t, "systype", "unspecified") == "analog" then before + [ReadSystem(t, |before|)] else before
  }

  /** The trees of a known type. */
  function Analog(ts: seq<Tree>): seq<Tree> {
    if ts == [] then []
    else
      var n := |ts| - 1;
      Analog(ts[..n]) + if GetText(ts[n], "systype", "unspecified") == "analog" then [ts[n]] else []
  }

  /** Systems of an unknown type are as if they were not there: the others are numbered without them. */
  lemma {:induction false} UnknownPassedOver(ts: seq<Tree>)
    ensures |ReadAll(ts)| == |Analog(ts)|
    ensures forall i :: 0 <= i < |Analog(ts)| ==> ReadAll(ts)[i] == ReadSystem(Analog(ts)[i], i)
  {
    hide GetText, ReadSystem;
    if ts != [] { UnknownPassedOver(ts[..|ts| - 1]); }
  }

  function WriteAll(db: seq<System>): seq<Tree> {
    seq(|db|, i requires 0 <= i < |db| => SystemTree(db[i].tag, db[i].lockedOut, db[i].entries))
  }

  lemma OneSystem(s: System, index: nat)
    requires Placed(s.entries, index) && IntDelays(s.entries)
    ensures var t := SystemTree(s.tag, s.lockedOut, s.entries);
      && GetText(t, "systype", "unspecified") == "analog"
      && ReadSystem(t, index) == System(s.tag, s.lockedOut, Surviving(s.entries))
  {
    SystemRoundTrip(s.entries, index);
    var t := SystemTree(s.tag, s.lockedOut, s.entries);
    assert "systype" in t.values && "tag" in t.values && "lockout" in t.values;
  }

  /** A database written and read back: the same systems, each with its loadable entries. */
  lemma {:induction false} DatabaseRoundTrip(db: seq<System>)
    requires Database(db)
    ensures |ReadAll(WriteAll(db))| == |db|
    ensures forall i :: 0 <= i < |db| ==>
      ReadAll(WriteAll(db))[i] == System(db[i].tag, db[i].lockedOut, Surviving(db[i].entries))
  {
    hide SystemTree, ReadSystem, GetText, Surviving, Placed, IntDelays;
    if db != [] {
      var n := |db| - 1;
      DatabaseRoundTrip(db[..n]);
      OneSystem(db[n], n);
      hide Database;
      assert WriteAll(db)[..n] == WriteAll(db[..n]);
      assert WriteAll(db)[n] == SystemTree(db[n].tag, db[n].lockedOut, db[n].entries);
    }
  }

  /** It comes back as it was, every entry at its indices, exactly when every frequency is a non-zero int. */
  lemma DatabaseLosslessIff(db: seq<System>)
    requires Database(db)
    ensures ReadAll(WriteAll(db)) == db <==> forall i :: 0 <= i < |db| ==> AllLoadable(db[i].entries)
  {
    hide ReadAll, WriteAll, AllLoadable;
    DatabaseRoundTrip(db);
    var back := ReadAll(WriteAll(db));
    forall i | 0 <= i < |db| ensures back[i] == db[i] <==> AllLoadable(db[i].entries) {
      assert Placed(db[i].entries, i);
      SurvivingLength(db[i].entries);
      if AllLoadable(db[i].entries) { AllSurvive(db[i].entries, i); }
    }
    hide Surviving, Database, Placed;
    assert back == db <==> forall i :: 0 <= i < |db| ==> back[i] == db[i];
  }

  /** An entry keeps its place when it and the entries before it are loadable, whatever comes after. */
  lemma {:induction false} PrefixSurvives(entries: seq<Entry>, index: nat, j: nat)
    requires Placed(entries, index) && j < |entries| && AllLoadable(entries[..j + 1])
    ensures j < |Surviving(entries)| && Surviving(entries)[j] == entries[j]
  {
    var n := |entries| - 1;
    if j == n {
      assert entries[..j + 1] == entries;
      AllSurvive(entries, index);
    } else {
      assert entries[..n][..j + 1] == entries[..j + 1];
      PrefixSurvives(entries[..n], index, j);
    }
  }

  // ---- keys -----------------------------------------------------------------------------------------

  predicate IsDigit(c: char) { '0' <= c <= '9' || c == '-' }

  function Digits(n: nat): (s: string)
    ensures s != [] && forall i :: 0 <= i < |s| ==> '0' <= s[i] <= '9'
  {
    if n < 10 then [(n as char) + '0'] else Digits(n / 10) + [((n % 10) as char) + '0']
  }

  function ValueOf(s: string): int
    requires forall i :: 0 <= i < |s| ==> '0' <= s[i] <= '9'
  {
    if s == [] then 0 else 10 * ValueOf(s[..|s| - 1]) + (s[|s| - 1] as int - '0' as int)
  }

  /** std::to_string */
  function Decimal(n: int): string { if n < 0 then "-" + Digits(-n) else Digits(n) }

  lemma {:induction false} DigitsValue(n: nat)
    ensures ValueOf(Digits(n)) == n
  {
    if n < 10 {
      assert Digits(n)[..0] == [];
    } else {
      DigitsValue(n / 10);
      assert Digits(n)[..|Digits(n)| - 1] == Digits(n / 10);
    }
  }

  lemma DecimalInjective(m: int, n: int)
    requires Decimal(m) == Decimal(n)
    ensures m == n
  {
    DigitsValue(if m < 0 then -m else m);
    DigitsValue(if n < 0 then -n else n);
    assert m < 0 ==> Decimal(m)[0] == '-' && Decimal(m)[1..] == Digits(-m);
    assert n < 0 ==> Decimal(n)[0] == '-' && Decimal(n)[1..] == Digits(-n);
  }

  function Suffix(k: Kind): string {
    match k
    case FM => "FM"
    case AM => "AM"
    case PL(tone) => "FMPL" + tone
    case DC(code) => "FMDC" + code
  }

  function Key(e: Entry): string { "F" + Decimal(e.freq) + Suffix(e.kind) }

  lemma SplitAtLetter(a: string, b: string, x: string, y: string)
    requires (forall i :: 0 <= i < |a| ==> IsDigit(a[i])) && (forall i :: 0 <= i < |b| ==> IsDigit(b[i]))
    requires x != [] && y != [] && !IsDigit(x[0]) && !IsDigit(y[0]) && a + x == b + y
    ensures a == b && x == y
  {
    var k := if |a| < |b| then |a| else |b|;
    assert (a + x)[k] == (b + y)[k];
    assert a == (a + x)[..|a|] && b == (b + y)[..|b|];
    assert x == (a + x)[|a|..] && y == (b + y)[|b|..];
  }

  /** A key tells the frequency and the kind of a channel, tone or code included. */
  lemma KeyIdentifies(d: Entry, e: Entry)
    ensures Key(d) == Key(e) <==> d.freq == e.freq && d.kind == e.kind
  {
    if Key(d) == Key(e) {
      assert Key(d)[1..] == Decimal(d.freq) + Suffix(d.kind);
      assert Key(e)[1..] == Decimal(e.freq) + Suffix(e.kind);
      SplitAtLetter(Decimal(d.freq), Decimal(e.freq), Suffix(d.kind), Suffix(e.kind));
      DecimalInjective(d.freq, e.freq);
      SuffixInjective(d.kind, e.kind);
    }
  }

  lemma SuffixInjective(j: Kind, k: Kind)
    requires Suffix(j) == Suffix(k)
    ensures j == k
  {
    assert |Suffix(j)| == |Suffix(k)|;
    assert Suffix(j)[0] == Suffix(k)[0];
    if |Suffix(j)| > 2 {
      assert Suffix(j)[2] == Suffix(k)[2];
      assert j.PL? ==> Suffix(j)[4..] == j.tone;
      assert j.DC? ==> Suffix(j)[4..] == j.code;
      assert k.PL? ==> Suffix(k)[4..] == k.tone;
      assert k.DC? ==> Suffix(k)[4..] == k.code;
    }
  }

  // ---- resuming a saved state -------------------------------------------------------------------------

  datatype ScanState = StateScan | StateHold | StateManual

  /** The saved scanner state, as written and as read: the frequency is read with an int default. */
  datatype Saved = Saved(state: ScanState, holdIndex: seq<int>, holdKey: string, manualFreq: int, modulation: string)

  function ModulationOf(k: Kind): string {
    match k
    case FM => "NFM"
    case AM => "AM"
    case PL(tone) => "PL" + tone
    case DC(code) => "DC" + code
  }

  ghost predicate InDatabase(i: int, j: int, db: seq<System>) { 0 <= i < |db| && 0 <= j < |db[i].entries| }

  /** What ST_SaveAll writes for the state the machine saves. */
  function Write(s: M.Saved, db: seq<System>): Saved {
    match s
    case SavedHold(Listed(i, j)) =>
      if 0 <= i < |db| && 0 <= j < |db[i].entries| then Saved(StateHold, [i, j], Key(db[i].entries[j]), 0, "")
      else Saved(StateScan, [], "", 0, "")
    case SavedManual(ManualEnt(freq, modulation)) => Saved(StateManual, [], "", freq, modulation)
    case SavedManual(Listed(i, j)) =>
      if 0 <= i < |db| && 0 <= j < |db[i].entries|
      then Saved(StateManual, [], "", db[i].entries[j].freq, ModulationOf(db[i].entries[j].kind))
      else Saved(StateScan, [], "", 0, "")
    case _ => Saved(StateScan, [], "", 0, "")
  }

  /** Out of and back into the state file. */
  function Reload(s: Saved): Saved { s.(manualFreq := if IsInt(s.manualFreq) then s.manualFreq else 100000000) }

  /** getEntryByIndex: the key of the entry at the index, or of the walk's next one where there is no such entry. */
  function KeyAt(index: seq<int>, db: seq<System>, nextKey: string): string {
    if |index| < 2 || index[0] < 0 || index[1] < 0 || index[0] >= |db| || index[1] >= |db[index[0]].entries| then
      nextKey
    else Key(db[index[0]].entries[index[1]])
  }

  /** startScanner: what it asks of the machine. */
  function Resume(s: Saved, db: seq<System>, nextKey: string): M.Request {
    match s.state
    case StateHold => if KeyAt(s.holdIndex, db, nextKey) == s.holdKey then M.HoldScan(s.holdIndex) else M.StartScan
    case StateManual => M.ManualEntry(s.manualFreq, s.modulation)
    case StateScan => M.StartScan
  }

  function Sizes(db: seq<System>): seq<nat> { seq(|db|, i requires 0 <= i < |db| => |db[i].entries|) }

  /** The saved state goes through the state file, and startScanner starts on what the database file gives. */
  function Restart(saved: M.Saved, db: seq<System>, db': seq<System>, nextKey: string): M.Request {
    Resume(Reload(Write(saved, db)), db', nextKey)
  }

  /** A held entry is held again: when it and those before it in its system have non-zero int frequencies, then
      after database and state went through their files startScanner finds it at its index with the same key, tag,
      lockout and delay, asks to hold that index, and the hold that follows is on it. */
  lemma HoldResumed(db: seq<System>, i: int, j: int, nextKey: string, feed: nat -> M.Ent, s: M.State, r: M.Report)
    requires Database(db) && InDatabase(i, j, db) && AllLoadable(db[i].entries[..j + 1])
    requires M.Lively(feed) && s.cur.Load? && s.running
    ensures var db' := ReadAll(WriteAll(db));
      && InDatabase(i, j, db') && db'[i].entries[j] == db[i].entries[j]
      && var s' := M.Ask(s, Restart(M.SavedHold(M.Listed(i, j)), db, db', nextKey));
         && s' == M.Ask(s, M.HoldScan([i, j]))
         && M.CanRun(s') && M.Run(feed, Sizes(db'), s', r).entry == M.Listed(i, j)
  {
    hide ReadAll, WriteAll, Key, M.Lively;
    DatabaseRoundTrip(db);
    PrefixSurvives(db[i].entries, i, j);
    hide Database, AllLoadable, Surviving;
    var db' := ReadAll(WriteAll(db));
    var s1 := M.Ask(s, M.HoldScan([i, j]));
    assert M.Known([i, j], Sizes(db'));
    M.RunIs(feed, Sizes(db'), s1, r);
    assert M.HeldEntry(feed, Sizes(db'), M.Ready(s1)).0 == M.Listed(i, j);
    hide M.Run, M.HeldEntry;
  }

  /** A scan that was saved, or a scanner that saved nothing, scans again, from the walk's next entry on. */
  lemma ScanResumed(saved: M.Saved, db: seq<System>, db': seq<System>, nextKey: string, feed: nat -> M.Ent, s: M.State,
                    r: M.Report)
    requires saved.SavedScan? || saved.NotSaved?
    requires M.Lively(feed) && s.cur.Load? && s.running
    ensures var s' := M.Ask(s, Restart(saved, db, db', nextKey));
      && M.CanRun(s') && M.Run(feed, Sizes(db'), s', r).entry == feed(s.cursor)
      && M.Run(feed, Sizes(db'), s', r).cursor == s.cursor + 1
  {
    T.StartScanScans(feed, Sizes(db'), s, r);
    hide M.Run, M.Lively, M.Ask;
  }

  /** And on whatever database it starts, startScanner holds only on an entry of the saved frequency and kind. */
  lemma HoldNeedsSameChannel(db: seq<System>, i: int, j: int, db': seq<System>, nextKey: string)
    requires InDatabase(i, j, db)
    ensures Restart(M.SavedHold(M.Listed(i, j)), db, db', nextKey).HoldScan? <==>
      var e := db[i].entries[j];
      if InDatabase(i, j, db') then db'[i].entries[j].freq == e.freq && db'[i].entries[j].kind == e.kind
      else nextKey == Key(e)
  {
    hide Key;
    if InDatabase(i, j, db') { KeyIdentifies(db'[i].entries[j], db[i].entries[j]); }
  }

  /** A manual entry is tuned again, on the same frequency and modulation, exactly when its frequency fits an int. */
  lemma ManualResumedIff(db: seq<System>, freq: int, modulation: string, db': seq<System>, nextKey: string,
                         feed: nat -> M.Ent, s: M.State, r: M.Report)
    requires M.Lively(feed) && s.cur.Load? && s.running && (modulation == "NFM" || modulation == "AM")
    ensures var s' := M.Ask(s, Restart(M.SavedManual(M.ManualEnt(freq, modulation)), db, db', nextKey));
      && M.CanRun(s')
      && (M.Run(feed, Sizes(db'), s', r).entry == M.ManualEnt(freq, modulation) <==> IsInt(freq))
  {
    hide M.Run, M.Lively;
    M.RunIs(feed, Sizes(db'), M.Ask(s, Restart(M.SavedManual(M.ManualEnt(freq, modulation)), db, db', nextKey)), r);
  }

  /** A list entry saved as a manual one (an index hold after manual tuning) is tuned again on its frequency and
      modulation exactly when the frequency fits an int and it has no tone or code. */
  lemma ListEntryResumedIff(db: seq<System>, i: int, j: int, db': seq<System>, nextKey: string,
                            feed: nat -> M.Ent, s: M.State, r: M.Report)
    requires M.Lively(feed) && s.cur.Load? && s.running && InDatabase(i, j, db)
    ensures var e := db[i].entries[j];
      var s' := M.Ask(s, Restart(M.SavedManual(M.Listed(i, j)), db, db', nextKey));
      && M.CanRun(s')
      && (M.Run(feed, Sizes(db'), s', r).entry == M.ManualEnt(e.freq, ModulationOf(e.kind)) <==>
            IsInt(e.freq) && (e.kind.FM? || e.kind.AM?))
  {
    hide M.Run, M.Lively;
    ToneLetters(db[i].entries[j].kind);
    M.RunIs(feed, Sizes(db'), M.Ask(s, Restart(M.SavedManual(M.Listed(i, j)), db, db', nextKey)), r);
  }

  /** The modulation of an entry with a tone or a code is none that ST_Manual knows. */
  lemma ToneLetters(k: Kind)
    ensures k.PL? || k.DC? ==> ModulationOf(k) != "AM" && ModulationOf(k) != "NFM"
  {
    assert k.PL? || k.DC? ==> ModulationOf(k)[0] == 'P' || ModulationOf(k)[0] == 'D';
    assert "AM"[0] == 'A' && "NFM"[0] == 'N';
  }

  /** One with a tone or a code comes back as a plain channel. */
  lemma ToneForgotten(db: seq<System>, i: int, j: int, db': seq<System>, nextKey: string,
                      feed: nat -> M.Ent, s: M.State, r: M.Report)
    requires M.Lively(feed) && s.cur.Load? && s.running && InDatabase(i, j, db) && IsInt(db[i].entries[j].freq)
    requires db[i].entries[j].kind.PL? || db[i].entries[j].kind.DC?
    ensures var s' := M.Ask(s, Restart(M.SavedManual(M.Listed(i, j)), db, db', nextKey));
      && M.CanRun(s')
      && M.Run(feed, Sizes(db'), s', r).entry == M.ManualEnt(db[i].entries[j].freq, "NFM")
  {
    hide M.Run, M.Lively;
    ToneLetters(db[i].entries[j].kind);
    M.RunIs(feed, Sizes(db'), M.Ask(s, Restart(M.SavedManual(M.Listed(i, j)), db, db', nextKey)), r);
  }
}
