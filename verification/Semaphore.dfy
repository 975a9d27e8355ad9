/** The light semaphore of the blocking queue (atomicops.h, LightweightSemaphore) with one waiter and one
    signaller over a kernel semaphore. A step is one access to the count or to the kernel semaphore; a timed
    wait on the kernel semaphore may time out at any step. */
module Semaphore {

  /** How often waitWithPartialSpinning looks at the count before it sleeps. */
  const SPINS: nat := 10000

  datatype Call = TryWait | Wait | TimedWait

  datatype Waiter =
    | WIdle
    | WTry(c: Call)                 // load the count
    | WTake(c: Call)                // fetch_add(-1): it was positive
    | WSpin(c: Call, left: nat)     // load the count once more
    | WDecrement(c: Call)           // fetch_add(-1), whatever it is
    | WSleep(c: Call)               // wait on the kernel semaphore
    | WBack                         // timed out: fetch_add(1)
    | WAgain                        // signalled after all: fetch_add(-1)
    | WTryKernel                    // try_wait on the kernel semaphore

  datatype Answer = NoAnswer | Granted | Denied

  /** `granted` counts what has been signalled (and the initial count), `taken` the waits that succeeded;
      both are bookkeeping. */
  datatype State = State(count: int, kernel: nat, waiter: Waiter, posting: bool, answer: Answer, granted: int,
                         taken: int)

  // ---- steps ----------------------------------------------------------------------------------

  function Grant(s: State, count: int): State {
    s.(count := count, waiter := WIdle, answer := Granted, taken := s.taken + 1)
  }

  function Deny(s: State): State { s.(waiter := WIdle, answer := Denied) }

  /** The first look at the count: `tryWait`, alone or at the head of `wait`. */
  function Try(s: State, c: Call): State {
    if 0 < s.count then s.(waiter := WTake(c))
    else if c.TryWait? then Deny(s)
    else s.(waiter := WSpin(c, SPINS - 1))
  }

  function Spin(s: State, c: Call, left: nat): State {
    if 0 < s.count then s.(waiter := WTake(c))
    else if left == 0 then s.(waiter := WDecrement(c))
    else s.(waiter := WSpin(c, left - 1))
  }

  function Sleep(s: State, c: Call, timeout: bool): State {
    if c.TimedWait? && timeout then s.(waiter := WBack)
    else if 0 < s.kernel then Grant(s, s.count).(kernel := s.kernel - 1)
    else s
  }

  /** One step of the waiter; an idle one starts call c. */
  function WaiterStep(s: State, c: Call, timeout: bool): State {
    match s.waiter
    case WIdle => s.(waiter := WTry(c))
    case WTry(c0) => Try(s, c0)
    case WTake(_) => Grant(s, s.count - 1)
    case WSpin(c0, left) => Spin(s, c0, left)
    case WDecrement(c0) => if 0 < s.count then Grant(s, s.count - 1) else s.(count := s.count - 1, waiter := WSleep(c0))
    case WSleep(c0) => Sleep(s, c0, timeout)
    case WBack => if s.count < 0 then Deny(s).(count := s.count + 1) else s.(count := s.count + 1, waiter := WAgain)
    case WAgain => s.(count := s.count - 1, waiter := if 0 < s.count then WTryKernel else WBack)
    case WTryKernel => if 0 < s.kernel then Grant(s, s.count).(kernel := s.kernel - 1) else s.(waiter := WBack)
  }

  /** One step of the signaller: add to the count, then post when a waiter has gone to sleep on it. */
  function SignalStep(s: State, n: nat): State {
    if s.posting then s.(kernel := s.kernel + 1, posting := false)
    else s.(count := s.count + n, posting := s.count < 0, granted := s.granted + n)
  }

  // ---- invariant ------------------------------------------------------------------------------

  /** The waiter has taken one off the count without having been granted anything yet. */
  function Outstanding(w: Waiter): nat { if w.WSleep? || w.WBack? || w.WTryKernel? then 1 else 0 }

  /** Wake-ups posted, or about to be, and not yet consumed. */
  function Owed(s: State): nat { s.kernel + if s.posting then 1 else 0 }

  predicate Inv(s: State) {
    && s.count == s.granted - s.taken - Outstanding(s.waiter) && s.taken <= s.granted
    && Owed(s) == (if s.waiter.WAgain? || (Outstanding(s.waiter) == 1 && 0 <= s.count) then 1 else 0)
    && (s.waiter.WTake? || s.waiter.WAgain? ==> 0 < s.count) && (s.waiter.WTryKernel? ==> 0 <= s.count)
  }

  predicate Initial(s: State) {
    && 0 <= s.count == s.granted && s.taken == 0 && s.kernel == 0 && !s.posting && s.waiter.WIdle?
  }

  datatype Choice = Wait(c: Call, timeout: bool) | Signal(n: nat)

  function Step(s: State, c: Choice): State {
    match c
    case Wait(call, timeout) => WaiterStep(s, call, timeout)
    case Signal(n) => SignalStep(s, n)
  }

  /** What the callers must respect: a signal of at least 1, or none to sleep on. */
  predicate Proper(s: State, c: Choice) { c.Signal? && !s.posting ==> 1 <= c.n || 0 <= s.count }

  lemma StepKeepsInv(s: State, c: Choice)
    requires Inv(s) && Proper(s, c)
    ensures Inv(Step(s, c))
  {
    match c
    case Wait(_, _) =>
    case Signal(_) =>
  }

  /** A signal of 0 is harmless exactly when nobody is asleep on the count: else it posts a wake-up nobody
      has been granted. */
  lemma SignalKeepsInvIff(s: State, n: nat)
    requires Inv(s) && !s.posting
    ensures Inv(SignalStep(s, n)) <==> 1 <= n || 0 <= s.count
  {
  }

  function Exec(s: State, run: seq<Choice>): State
    decreases |run|
  {
    if run == [] then s else Exec(Step(s, run[0]), run[1..])
  }

  /** The signals of the run are of at least 1. */
  predicate Signals(run: seq<Choice>) { forall i :: 0 <= i < |run| && run[i].Signal? ==> 1 <= run[i].n }

  lemma {:induction false} RunKeepsInv(s: State, run: seq<Choice>)
    requires Inv(s) && Signals(run)
    ensures Inv(Exec(s, run))
    decreases |run|
  {
    if run != [] {
      StepKeepsInv(s, run[0]);
      RunKeepsInv(Step(s, run[0]), run[1..]);
    }
  }

  // ---- what holds of every run ------------------------------------------------------------------

  /** All that the signals of a run add: a post adds nothing. */
  function Signalled(s: State, run: seq<Choice>): int
    decreases |run|
  {
    if run == [] then 0
    else (if run[0].Signal? && !s.posting then run[0].n else 0) + Signalled(Step(s, run[0]), run[1..])
  }

  /** The step ends a wait that succeeds. */
  predicate Wins(s: State, c: Choice) {
    c.Wait? && !s.waiter.WIdle? && Step(s, c).waiter.WIdle? && Step(s, c).answer.Granted?
  }

  /** How many waits of a run succeed. */
  function Won(s: State, run: seq<Choice>): nat
    decreases |run|
  {
    if run == [] then 0 else (if Wins(s, run[0]) then 1 else 0) + Won(Step(s, run[0]), run[1..])
  }

  lemma {:induction false} Accounted(s: State, run: seq<Choice>)
    ensures Exec(s, run).granted == s.granted + Signalled(s, run)
    ensures Exec(s, run).taken == s.taken + Won(s, run)
    decreases |run|
  {
    if run != [] {
      OneAccounted(s, run[0]);
      hide Step, Wins;
      Accounted(Step(s, run[0]), run[1..]);
    }
  }

  lemma OneAccounted(s: State, c: Choice)
    ensures Step(s, c).granted == s.granted + (if c.Signal? && !s.posting then c.n else 0)
    ensures Step(s, c).taken == s.taken + (if Wins(s, c) then 1 else 0)
  {
  }

  /** No wait succeeds without a signal, and between calls the count is what it was at first, with all signals
      added and the successful waits taken off; no wake-up is left over in the kernel semaphore then. The
      signaller's assertion holds always. */
  lemma Balanced(s0: State, run: seq<Choice>)
    requires Initial(s0) && Signals(run)
    ensures var s := Exec(s0, run); var sum := s0.count + Signalled(s0, run);
      && -1 <= s.count && Won(s0, run) <= sum
      && (s.waiter.WIdle? && !s.posting ==> s.count == sum - Won(s0, run) && s.kernel == 0)
  {
    RunKeepsInv(s0, run);
    Accounted(s0, run);
  }

  /** A wait is denied only when, at that step, all that was signalled had been waited for; a timed-out wait
      then leaves the count as it found it. */
  lemma DeniedOnlyWhenNone(s: State, c: Call, timeout: bool)
    requires Inv(s) && !s.waiter.WIdle? && WaiterStep(s, c, timeout).waiter.WIdle?
        && WaiterStep(s, c, timeout).answer.Denied?
    ensures s.granted == s.taken && WaiterStep(s, c, timeout).count == 0
  {
  }

  /** The waiter is in a call of c. */
  predicate Asked(w: Waiter, c: Call) {
    match w
    case WIdle => false
    case WTry(d) => d == c
    case WTake(d) => d == c
    case WSpin(d, _) => d == c && !c.TryWait?
    case WDecrement(d) => d == c && !c.TryWait?
    case WSleep(d) => d == c && !c.TryWait?
    case _ => c.TimedWait?
  }

  /** A timed wait that has timed out. */
  predicate TimedOut(w: Waiter) { w.WBack? || w.WAgain? || w.WTryKernel? }

  /** The step is one at which the kernel wait times out. */
  predicate TimesOut(s: State, ch: Choice) { s.waiter.WSleep? && ch.Wait? && ch.timeout }

  lemma StaysAsked(s: State, ch: Choice, c: Call)
    requires Inv(s) && Proper(s, ch) && Asked(s.waiter, c)
    ensures var s' := Step(s, ch);
      if s'.waiter.WIdle? then
        || s'.answer.Granted?
        || (s'.answer.Denied? && !c.Wait? && s.granted == s.taken && (c.TimedWait? ==> TimedOut(s.waiter)))
      else Asked(s'.waiter, c) && (TimedOut(s'.waiter) ==> TimedOut(s.waiter) || TimesOut(s, ch))
  {
  }

  /** The run ends with the first of its steps that leaves the waiter idle. */
  predicate EndsWait(s: State, run: seq<Choice>)
    decreases |run|
  {
    && run != []
    && var s' := Step(s, run[0]);
       if |run| == 1 then s'.waiter.WIdle? else !s'.waiter.WIdle? && EndsWait(s', run[1..])
  }

  /** At some moment before the end of the run, all that was signalled had been waited for. */
  predicate NoneOnce(s: State, run: seq<Choice>)
    decreases |run|
  {
    run != [] && (s.granted == s.taken || NoneOnce(Step(s, run[0]), run[1..]))
  }

  /** At some step of the run the kernel wait times out. */
  predicate TimesOutOnce(s: State, run: seq<Choice>)
    decreases |run|
  {
    run != [] && (TimesOut(s, run[0]) || TimesOutOnce(Step(s, run[0]), run[1..]))
  }

  lemma {:induction false} AskedAnswers(s: State, run: seq<Choice>, c: Call)
    requires Inv(s) && Signals(run) && EndsWait(s, run) && Asked(s.waiter, c)
    ensures var e := Exec(s, run);
      || e.answer.Granted?
      || (e.answer.Denied? && !c.Wait? && NoneOnce(s, run)
          && (c.TimedWait? ==> TimedOut(s.waiter) || TimesOutOnce(s, run)))
    decreases |run|
  {
    StepKeepsInv(s, run[0]);
    StaysAsked(s, run[0], c);
    hide Inv, Step, Asked, TimedOut, TimesOut;
    if |run| == 1 {
      assert run[1..] == [];
    } else {
      AskedAnswers(Step(s, run[0]), run[1..], c);
    }
  }

  /** A call of `wait` is never denied; a try or a timed wait is denied only if, at some moment of it, all that was
      signalled had been waited for, and a timed wait only after its time is up. */
  lemma WaitAnswers(s: State, run: seq<Choice>, c: Call)
    requires Inv(s) && Signals(run) && s.waiter.WIdle? && EndsWait(s, run) && run[0].Wait? && run[0].c == c
    ensures var e := Exec(s, run);
      || e.answer.Granted?
      || (e.answer.Denied? && !c.Wait? && NoneOnce(s, run) && (c.TimedWait? ==> TimesOutOnce(s, run)))
  {
    StepKeepsInv(s, run[0]);
    var s' := Step(s, run[0]);
    assert s'.waiter == WTry(c);
    AskedAnswers(s', run[1..], c);
  }

  /** No wake-up is lost: a sleeper for whom something has been signalled is woken by the kernel semaphore at
      once, or after the signaller's next step. */
  lemma NoLostWakeup(s: State, c: Call, n: nat)
    requires Inv(s) && s.waiter.WSleep? && s.taken < s.granted
    ensures var s' := if s.posting then SignalStep(s, n) else s;
      WaiterStep(s', c, false).waiter.WIdle? && WaiterStep(s', c, false).answer.Granted?
  {
  }

  /** The second test of the rollback loop never fails on the count, and on the kernel semaphore only while
      the signaller is still on its way to post. */
  lemma RollbackWaitsForPost(s: State, c: Call, timeout: bool)
    requires Inv(s)
    ensures s.waiter.WAgain? ==> WaiterStep(s, c, timeout).waiter.WTryKernel?
    ensures s.waiter.WTryKernel? && WaiterStep(s, c, timeout).waiter.WBack? ==> s.posting
  {
  }

  function WaiterRank(w: Waiter): nat {
    match w
    case WIdle => 0
    case WTryKernel => 1
    case WAgain => 2
    case WBack => 3
    case WSleep(_) => 4
    case WDecrement(_) => 5
    case WTake(_) => 1
    case WSpin(_, left) => 6 + left
    case WTry(_) => 7 + SPINS
  }

  /** A call with a deadline that has passed ends: each of its steps brings it closer, except a failed
      try_wait while the signaller is posting. */
  lemma TimedWaitEnds(s: State, c: Call)
    requires Inv(s) && !s.waiter.WIdle? && !(s.waiter.WSleep? && !s.waiter.c.TimedWait?)
    ensures WaiterRank(WaiterStep(s, c, true).waiter) < WaiterRank(s.waiter) || (s.waiter.WTryKernel? && s.posting)
  {
  }

  /** `wait`, n times a step of the waiter. */
  function Waits(n: nat): seq<Choice> { seq(n, i requires 0 <= i < n => Choice.Wait(Call.Wait, false)) }

  lemma {:induction false} ExecTwo(s: State, run: seq<Choice>, more: seq<Choice>)
    ensures Exec(s, run + more) == Exec(Exec(s, run), more)
    decreases |run|
  {
    if run == [] {
      assert run + more == more;
    } else {
      assert (run + more)[1..] == run[1..] + more;
      ExecTwo(Step(s, run[0]), run[1..], more);
    }
  }

  /** With nothing on the count the waiter spins out, and then takes one off it and sleeps. */
  lemma {:induction false} SpinsOut(s: State, left: nat)
    requires s.waiter == WSpin(Call.Wait, left) && s.count == 0
    ensures Exec(s, Waits(left + 2)) == s.(count := -1, waiter := WSleep(Call.Wait))
    decreases left
  {
    var s1 := Step(s, Choice.Wait(Call.Wait, false));
    assert Waits(left + 2)[1..] == Waits(left + 1);
    if left == 0 {
      var s2 := Step(s1, Choice.Wait(Call.Wait, false));
      assert Waits(1)[1..] == [];
      assert Exec(s2, []) == s2;
    } else {
      SpinsOut(s1, left - 1);
    }
  }

  /** Why signals of 0 are excluded: from a new semaphore on which nothing is ever signalled, a waiter that went
      to sleep is woken. */
  lemma ZeroSignalWakes(s0: State)
    requires s0 == State(0, 0, WIdle, false, NoAnswer, 0, 0)
    ensures Initial(s0)
    ensures var s := Exec(s0, Waits(SPINS + 3) + [Signal(0), Signal(0), Choice.Wait(Call.Wait, false)]);
      s.answer.Granted? && s.granted == 0 && s.taken == 1 && !Inv(s)
  {
    hide Waits;
    var asleep := s0.(count := -1, waiter := WSleep(Call.Wait));
    FallsAsleep(s0);
    ExecTwo(s0, Waits(SPINS + 3), [Signal(0), Signal(0), Choice.Wait(Call.Wait, false)]);
    ZeroSignalGrants(asleep);
  }

  lemma FallsAsleep(s0: State)
    requires s0 == State(0, 0, WIdle, false, NoAnswer, 0, 0)
    ensures Exec(s0, Waits(SPINS + 3)) == s0.(count := -1, waiter := WSleep(Call.Wait))
  {
    var step := Choice.Wait(Call.Wait, false);
    assert Waits(SPINS + 3)[1..] == Waits(SPINS + 2) && Waits(SPINS + 2)[1..] == Waits(SPINS + 1);
    var s1 := Step(s0, step);
    SpinsOut(Step(s1, step), SPINS - 1);
    assert Exec(s0, Waits(SPINS + 3)) == Exec(s1, Waits(SPINS + 2));
    assert Exec(s1, Waits(SPINS + 2)) == Exec(Step(s1, step), Waits(SPINS + 1));
  }

  lemma ZeroSignalGrants(asleep: State)
    requires asleep == State(-1, 0, WSleep(Call.Wait), false, NoAnswer, 0, 0)
    ensures var s := Exec(asleep, [Signal(0), Signal(0), Choice.Wait(Call.Wait, false)]);
      s.answer.Granted? && s.granted == 0 && s.taken == 1 && !Inv(s)
  {
    var run := [Signal(0), Signal(0), Choice.Wait(Call.Wait, false)];
    var s1 := Step(asleep, Signal(0));
    var s2 := Step(s1, Signal(0));
    assert run[1..] == [Signal(0), Choice.Wait(Call.Wait, false)];
    assert Exec(asleep, run) == Exec(s1, run[1..]);
    assert run[1..][1..] == [Choice.Wait(Call.Wait, false)];
    assert Exec(s1, run[1..]) == Exec(s2, [Choice.Wait(Call.Wait, false)]);
    assert [Choice.Wait(Call.Wait, false)][1..] == [];
  }
}
