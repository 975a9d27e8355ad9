/** The blocking queue (readerwriterqueue.h, BlockingReaderWriterQueue): the two-thread queue of SpscMachine
    and the light semaphore of Semaphore side by side. The producer signals after each element it enqueues,
    the consumer dequeues after each wait that succeeds. */
module BlockingQueue {
  import Q = SpscMachine
  import R = SpscRuns
  import K = SpscCalls
  import S = Semaphore

  datatype Producer = PIdle | PInner | PSignal | PPost

  datatype Consumer = CIdle | CWait | CStart | CInner | CPeek

  datatype State<T> = State(q: Q.State<T>, sema: S.State, prod: Producer, cons: Consumer)

  /** What the consumer calls when idle: peek, or one of try_dequeue and pop (TryWait), wait_dequeue (Wait) and
      wait_dequeue_timed (TimedWait). */
  datatype Choice<T> =
    | Produce(x: T, canAlloc: bool, mallocOk: bool, junk: T)
    | Consume(peek: bool, call: S.Call, timeout: bool)

  // ---- steps ----------------------------------------------------------------------------------

  /** A step inside inner.enqueue; a call that stored its element goes on to signal. */
  function Inner<T>(s: State<T>, x: T, canAlloc: bool, mallocOk: bool, junk: T): State<T>
    requires Q.Indexed(s.q)
  {
    var q := Q.ProducerStep(s.q, x, canAlloc, mallocOk, junk);
    s.(q := q, prod := if !q.prod.PIdle? then PInner else if q.reply.Accepted? then PSignal else PIdle)
  }

  function Signal<T>(s: State<T>): State<T> {
    var sema := S.SignalStep(s.sema, 1);
    s.(sema := sema, prod := if sema.posting then PPost else PIdle)
  }

  function ProduceStep<T>(s: State<T>, x: T, canAlloc: bool, mallocOk: bool, junk: T): State<T>
    requires Q.Indexed(s.q)
  {
    match s.prod
    case PIdle => Inner(s, x, canAlloc, mallocOk, junk)
    case PInner => Inner(s, x, canAlloc, mallocOk, junk)
    case PSignal => Signal(s)
    case PPost => Signal(s)
  }

  function AskSema<T>(s: State<T>, call: S.Call, timeout: bool): State<T> {
    var sema := S.WaiterStep(s.sema, call, timeout);
    s.(sema := sema, cons := if !sema.waiter.WIdle? then CWait else if sema.answer.Granted? then CStart else CIdle)
  }

  /** A step inside inner.try_dequeue or inner.peek. */
  function InnerDequeue<T>(s: State<T>, peek: bool): State<T>
    requires Q.Indexed(s.q)
  {
    var q := Q.ConsumerStep(s.q, peek);
    s.(q := q, cons := if q.cons.CIdle? then CIdle else if peek then CPeek else CInner)
  }

  function ConsumeStep<T>(s: State<T>, peek: bool, call: S.Call, timeout: bool): State<T>
    requires Q.Indexed(s.q)
  {
    match s.cons
    case CIdle => if peek then InnerDequeue(s, true) else AskSema(s, call, timeout)
    case CWait => AskSema(s, call, timeout)
    case CStart => InnerDequeue(s, false)
    case CInner => InnerDequeue(s, false)
    case CPeek => InnerDequeue(s, true)
  }

  function Step<T>(s: State<T>, c: Choice<T>): State<T>
    requires Q.Indexed(s.q)
  {
    match c
    case Produce(x, canAlloc, mallocOk, junk) => ProduceStep(s, x, canAlloc, mallocOk, junk)
    case Consume(peek, call, timeout) => ConsumeStep(s, peek, call, timeout)
  }

  // ---- invariant ------------------------------------------------------------------------------

  ghost predicate ProdOk<T>(s: State<T>) {
    && (s.prod.PInner? <==> !s.q.prod.PIdle?) && (s.prod.PPost? <==> s.sema.posting)
    && s.sema.granted == |s.q.enq| - (if s.prod.PSignal? then 1 else 0)
  }

  ghost predicate ConsOk<T>(s: State<T>) {
    && (s.cons.CInner? || s.cons.CPeek? <==> !s.q.cons.CIdle?) && (s.cons.CWait? <==> !s.sema.waiter.WIdle?)
    && s.sema.taken == |s.q.deq| + (if s.cons.CStart? || s.cons.CInner? then 1 else 0)
    && (s.cons.CInner? ==> R.Peeks(s.q.cons, false) && R.Promised(s.q))
    && (s.cons.CPeek? ==> R.Peeks(s.q.cons, true))
  }

  ghost predicate Inv<T>(s: State<T>) { Q.Inv(s.q) && S.Inv(s.sema) && ProdOk(s) && ConsOk(s) }

  // ---- what the inner steps change --------------------------------------------------------------

  lemma KeepInner<T>(s: State<T>, x: T, canAlloc: bool, mallocOk: bool, junk: T)
    requires Inv(s) && (s.prod.PIdle? || s.prod.PInner?)
    ensures Inv(Inner(s, x, canAlloc, mallocOk, junk))
  {
    hide Q.Inv, Q.Indexed, Q.ProducerStep, S.Inv, R.Peeks;
    R.IsIndexed(s.q);
    R.ProducerEffect(s.q, x, canAlloc, mallocOk, junk);
    R.ProducerKeepsInv(s.q, x, canAlloc, mallocOk, junk);
  }

  lemma KeepSignal<T>(s: State<T>)
    requires Inv(s) && (s.prod.PSignal? || s.prod.PPost?)
    ensures Inv(Signal(s))
  {
    hide Q.Inv, S.Inv, R.Peeks, R.Promised;
    S.StepKeepsInv(s.sema, S.Signal(1));
  }

  lemma KeepAskSema<T>(s: State<T>, call: S.Call, timeout: bool)
    requires Inv(s) && (s.cons.CIdle? || s.cons.CWait?)
    ensures Inv(AskSema(s, call, timeout))
  {
    hide Q.Inv, R.Peeks, R.Promised, S.WaiterStep, S.Inv;
    S.StepKeepsInv(s.sema, S.Choice.Wait(call, timeout));
    Taken(s.sema, call, timeout);
  }

  lemma Taken(s: S.State, call: S.Call, timeout: bool)
    ensures var s' := S.WaiterStep(s, call, timeout);
      && s'.granted == s.granted && s'.posting == s.posting && (s.waiter.WIdle? ==> !s'.waiter.WIdle?)
      && s'.taken == s.taken + (if s'.waiter.WIdle? && s'.answer.Granted? && !s.waiter.WIdle? then 1 else 0)
      && (!s.waiter.WIdle? && s'.waiter.WIdle? ==> !s'.answer.NoAnswer?)
  {
  }

  lemma KeepInnerPeek<T>(s: State<T>)
    requires Inv(s) && (s.cons.CIdle? || s.cons.CPeek?)
    ensures Inv(InnerDequeue(s, true))
  {
    hide Q.Inv, Q.Indexed, Q.ConsumerStep, S.Inv, R.Promised;
    R.IsIndexed(s.q);
    R.ConsumerEffect(s.q, true);
    R.ConsumerKeepsInv(s.q, true);
  }

  /** A granted wait stands for an element signalled and not dequeued, so the queue is not empty. */
  lemma GrantedMeansElement<T>(s: State<T>)
    requires Inv(s) && s.cons.CStart?
    ensures |s.q.deq| < |s.q.enq| && R.Promised(s.q)
  {
    hide Q.Inv, R.Peeks;
  }

  /** A dequeue that cannot come away empty-handed. */
  ghost predicate Sure<T>(q: Q.State<T>) { Q.Inv(q) && Q.Indexed(q) && R.Peeks(q.cons, false) && R.Promised(q) }

  /** It stays sure of its element, and ends by taking it. */
  lemma SureDequeue<T>(q: Q.State<T>)
    requires Sure(q)
    ensures Q.Indexed(q)
    ensures var q' := Q.ConsumerStep(q, false);
      && Q.Inv(q') && q'.prod == q.prod && q'.enq == q.enq && (q.cons.CIdle? ==> !q'.cons.CIdle?)
      && (if q'.cons.CIdle? then q'.answer.Took? && |q'.deq| == |q.deq| + 1
          else q'.deq == q.deq && R.Peeks(q'.cons, false) && R.Promised(q'))
  {
    hide Q.Inv, Q.Indexed, Q.ConsumerStep, R.Promised;
    R.ConsumerEffect(q, false);
    R.PromiseKept(q, Q.Consume(false));
    R.ConsumerKeepsInv(q, false);
  }

  lemma IsSure<T>(s: State<T>)
    requires Inv(s) && (s.cons.CStart? || s.cons.CInner?)
    ensures Sure(s.q) && Q.Indexed(s.q)
  {
    hide Q.Inv, Q.Indexed, S.Inv, R.Promised;
    R.IsIndexed(s.q);
    if s.cons.CStart? { GrantedMeansElement(s); }
  }

  lemma KeepInnerDequeue<T>(s: State<T>)
    requires Inv(s) && (s.cons.CStart? || s.cons.CInner?)
    ensures Inv(InnerDequeue(s, false))
    ensures InnerDequeue(s, false).cons.CIdle? ==> InnerDequeue(s, false).q.answer.Took?
  {
    hide Q.Inv, Q.Indexed, Q.ConsumerStep, S.Inv, R.Promised, Sure;
    IsSure(s);
    hide R.Peeks;
    SureDequeue(s.q);
  }

  lemma StepKeepsInv<T>(s: State<T>, c: Choice<T>)
    requires Inv(s)
    ensures Q.Indexed(s.q) && Inv(Step(s, c))
  {
    assert Q.Indexed(s.q);
    hide Inv, Q.Indexed;
    match c
    case Produce(x, canAlloc, mallocOk, junk) =>
      if s.prod.PIdle? || s.prod.PInner? { KeepInner(s, x, canAlloc, mallocOk, junk); } else { KeepSignal(s); }
    case Consume(peek, call, timeout) =>
      if s.cons.CPeek? || (s.cons.CIdle? && peek) { KeepInnerPeek(s); }
      else if s.cons.CStart? || s.cons.CInner? { KeepInnerDequeue(s); }
      else { KeepAskSema(s, call, timeout); }
  }

  // ---- runs -----------------------------------------------------------------------------------

  /** As constructed: an empty queue of n blocks, a semaphore at 0. */
  ghost predicate Initial<T>(s: State<T>, n: nat, size: nat) {
    R.Initial(s.q, n, size) && S.Initial(s.sema) && s.sema.count == 0 && s.prod.PIdle? && s.cons.CIdle?
  }

  lemma InitialInv<T>(s: State<T>, n: nat, size: nat)
    requires Initial(s, n, size)
    ensures Inv(s)
  {
    R.InitialInv(s.q, n, size);
  }

  ghost function Exec<T>(s: State<T>, run: seq<Choice<T>>): (r: State<T>)
    requires Inv(s)
    ensures Inv(r)
    decreases |run|
  {
    if run == [] then s
    else
      StepKeepsInv(s, run[0]);
      Exec(Step(s, run[0]), run[1..])
  }

  /** The success assertions never fail: under every interleaving of enqueue-then-signal with wait-then-dequeue,
      a wait that is granted is followed by a dequeue that takes the oldest element. */
  lemma SuccessAssertsHold<T>(s0: State<T>, n: nat, size: nat, run: seq<Choice<T>>, c: Choice<T>)
    requires Initial(s0, n, size) && c.Consume?
    ensures Inv(s0)
    ensures var s := Exec(s0, run);
      && Q.Indexed(s.q)
      && var s' := Step(s, c);
         (s.cons.CStart? || s.cons.CInner?) && s'.cons.CIdle? ==>
           s'.q.answer.Took? && |s.q.deq| < |s.q.enq| && s'.q.answer.v == s.q.enq[|s.q.deq|]
  {
    InitialInv(s0, n, size);
    hide Initial;
    var s := Exec(s0, run);
    assert Q.Indexed(s.q);
    if s.cons.CStart? || s.cons.CInner? {
      KeepInnerDequeue(s);
      var s' := Step(s, c);
      if s'.cons.CIdle? {
        R.ConsumerAnswers(s.q, false);
      }
    }
    hide Inv, Q.Indexed;
  }

  /** Between calls the semaphore's count, which size_approx reports, is the number of elements held. */
  lemma CountIsSize<T>(s: State<T>)
    requires Inv(s) && s.prod.PIdle? && s.cons.CIdle?
    ensures s.sema.count == |s.q.enq| - |s.q.deq| && s.sema.kernel == 0
  {
  }

  /** try_dequeue and a timed wait refuse only when every element signalled had been dequeued: at that step the
      queue holds nothing but an element whose signal is still to come. */
  lemma RefusesOnlyWhenEmpty<T>(s: State<T>, call: S.Call, timeout: bool)
    requires Inv(s) && s.cons.CWait? && AskSema(s, call, timeout).cons.CIdle?
    ensures |s.q.enq| - |s.q.deq| == if s.prod.PSignal? then 1 else 0
  {
    S.DeniedOnlyWhenNone(s.sema, call, timeout);
  }

  // ---- whole calls ------------------------------------------------------------------------------

  /** The state after one step. */
  ghost function Next<T>(s: State<T>, c: Choice<T>): (r: State<T>)
    requires Inv(s)
    ensures Inv(r)
  {
    StepKeepsInv(s, c);
    Step(s, c)
  }

  /** The run ends with the first of its steps that leaves the consumer idle. */
  ghost predicate EndsDequeue<T>(s: State<T>, run: seq<Choice<T>>)
    requires Inv(s)
    decreases |run|
  {
    && run != []
    && var s' := Next(s, run[0]);
       if |run| == 1 then s'.cons.CIdle? else !s'.cons.CIdle? && EndsDequeue(s', run[1..])
  }

  /** The queue holds nothing but possibly one element whose signal is still to come. */
  ghost predicate Drained<T>(s: State<T>) { |s.q.enq| - |s.q.deq| == if s.prod.PSignal? then 1 else 0 }

  /** At some moment before the end of the run it is so. */
  ghost predicate DrainedOnce<T>(s: State<T>, run: seq<Choice<T>>)
    requires Inv(s)
    decreases |run|
  {
    run != [] && (Drained(s) || DrainedOnce(Next(s, run[0]), run[1..]))
  }

  /** At some step of the run the consumer's kernel wait times out. */
  ghost predicate TimesOutOnce<T>(s: State<T>, run: seq<Choice<T>>)
    requires Inv(s)
    decreases |run|
  {
    run != [] && (TimesOut(s, run[0]) || TimesOutOnce(Next(s, run[0]), run[1..]))
  }

  predicate TimesOut<T>(s: State<T>, c: Choice<T>) { s.sema.waiter.WSleep? && c.Consume? && c.timeout }

  /** Inside a call of `call`. */
  ghost predicate InCall<T>(s: State<T>, call: S.Call) {
    match s.cons
    case CWait => S.Asked(s.sema.waiter, call)
    case CStart => s.sema.answer.Granted?
    case CInner => s.sema.answer.Granted?
    case _ => false
  }

  /** What a finished call has done: `deq` is what had been dequeued when it began. */
  ghost predicate Dequeued<T>(s: State<T>, deq: seq<T>, call: S.Call) {
    && s.cons.CIdle?
    && if s.sema.answer.Granted? then s.q.answer.Took? && s.q.deq == deq + [s.q.answer.v] <= s.q.enq
       else s.sema.answer.Denied? && !call.Wait? && s.q.deq == deq
  }

  lemma ProducerLeaves<T>(s: State<T>, x: T, canAlloc: bool, mallocOk: bool, junk: T)
    requires Inv(s)
    ensures Q.Indexed(s.q)
    ensures var s' := ProduceStep(s, x, canAlloc, mallocOk, junk);
      && s'.cons == s.cons && s'.q.deq == s.q.deq && s'.sema.waiter == s.sema.waiter && s'.sema.answer == s.sema.answer
  {
    hide Q.Inv, Q.Indexed, Q.ProducerStep, R.Peeks, R.Promised;
    R.IsIndexed(s.q);
    R.ProducerEffect(s.q, x, canAlloc, mallocOk, junk);
  }

  lemma WaitStays<T>(s: State<T>, call: S.Call, c: S.Call, timeout: bool)
    requires Inv(s) && s.cons.CWait? && InCall(s, call)
    ensures var s' := AskSema(s, c, timeout);
      && s'.q == s.q
      && (if s'.cons.CIdle? then
            && s'.sema.answer.Denied? && !call.Wait? && Drained(s)
            && (call.TimedWait? ==> S.TimedOut(s.sema.waiter))
          else InCall(s', call))
      && (S.TimedOut(s'.sema.waiter) ==>
            S.TimedOut(s.sema.waiter) || S.TimesOut(s.sema, S.Choice.Wait(c, timeout)))
  {
    hide Q.Inv, R.Peeks, R.Promised;
    S.StaysAsked(s.sema, S.Choice.Wait(c, timeout), call);
  }

  lemma InnerTakes<T>(s: State<T>)
    requires Inv(s) && (s.cons.CStart? || s.cons.CInner?)
    ensures var s' := InnerDequeue(s, false);
      && s'.sema == s.sema
      && if s'.cons.CIdle? then s'.q.answer.Took? && s'.q.deq == s.q.deq + [s'.q.answer.v] <= s'.q.enq
         else s'.cons.CInner? && s'.q.deq == s.q.deq
  {
    hide Q.Inv, Q.Indexed, Q.ConsumerStep, S.Inv, R.Promised;
    IsSure(s);
    SureDequeue(s.q);
    K.DeqBound(s.q);
    if Q.ConsumerStep(s.q, false).cons.CIdle? { R.ConsumerAnswers(s.q, false); }
  }

  lemma StaysInCall<T>(s: State<T>, c: Choice<T>, call: S.Call)
    requires Inv(s) && InCall(s, call)
    ensures Q.Indexed(s.q)
    ensures var s' := Step(s, c);
      if s'.cons.CIdle? then
        && Dequeued(s', s.q.deq, call)
        && (s'.sema.answer.Denied? ==> Drained(s) && (call.TimedWait? ==> S.TimedOut(s.sema.waiter)))
      else
        && InCall(s', call) && s'.q.deq == s.q.deq
        && (S.TimedOut(s'.sema.waiter) ==> S.TimedOut(s.sema.waiter) || TimesOut(s, c))
  {
    hide Inv, ProduceStep, AskSema, InnerDequeue, Q.Indexed;
    StepKeepsInv(s, c);
    match c
    case Produce(x, canAlloc, mallocOk, junk) => ProducerLeaves(s, x, canAlloc, mallocOk, junk);
    case Consume(peek, d, timeout) => if s.cons.CWait? { WaitStays(s, call, d, timeout); } else { InnerTakes(s); }
  }

  lemma {:induction false} InCallAnswers<T>(s: State<T>, run: seq<Choice<T>>, call: S.Call)
    requires Inv(s) && EndsDequeue(s, run) && InCall(s, call)
    ensures var t := Exec(s, run);
      && Dequeued(t, s.q.deq, call)
      && (t.sema.answer.Denied? ==>
            && DrainedOnce(s, run)
            && (call.TimedWait? ==> S.TimedOut(s.sema.waiter) || TimesOutOnce(s, run)))
    decreases |run|
  {
    hide Step, Inv, InCall, Dequeued, Drained, TimesOut, S.TimedOut;
    StepKeepsInv(s, run[0]);
    StaysInCall(s, run[0], call);
    if |run| == 1 {
      assert run[1..] == [];
    } else {
      InCallAnswers(Step(s, run[0]), run[1..], call);
    }
  }

  /** A call of try_dequeue or pop, wait_dequeue or wait_dequeue_timed, whatever the producer does meanwhile: it
      takes the oldest element and no other, or none; wait_dequeue always takes one, and the others come away
      without only if the queue was drained of all that had been signalled at some moment of the call, and
      wait_dequeue_timed only after its time is up. */
  lemma DequeueAnswers<T>(s: State<T>, run: seq<Choice<T>>, call: S.Call)
    requires Inv(s) && s.cons.CIdle? && EndsDequeue(s, run)
    requires run[0].Consume? && !run[0].peek && run[0].call == call
    ensures var t := Exec(s, run);
      && Dequeued(t, s.q.deq, call)
      && (t.sema.answer.Denied? ==> DrainedOnce(s, run) && (call.TimedWait? ==> TimesOutOnce(s, run)))
  {
    hide Inv, Dequeued, Drained;
    StepKeepsInv(s, run[0]);
    AsksSema(s, call, run[0].timeout);
    InCallAnswers(Step(s, run[0]), run[1..], call);
  }

  lemma AsksSema<T>(s: State<T>, call: S.Call, timeout: bool)
    requires Inv(s) && s.cons.CIdle?
    ensures var s' := AskSema(s, call, timeout);
      !s'.cons.CIdle? && InCall(s', call) && s'.q == s.q && !S.TimedOut(s'.sema.waiter)
  {
    hide Q.Inv, R.Peeks, R.Promised;
  }

  /** At some moment before the end of the run the queue is empty. */
  ghost predicate EmptyOnce<T>(s: State<T>, run: seq<Choice<T>>)
    requires Inv(s)
    decreases |run|
  {
    run != [] && (s.q.enq == s.q.deq || EmptyOnce(Next(s, run[0]), run[1..]))
  }

  /** A peek has seen the queue empty. */
  predicate SawEmpty<T>(q: Q.State<T>) { q.cons.CReadTailBlock? && q.sawEmpty }

  lemma PeekStep<T>(q: Q.State<T>)
    requires Q.Inv(q) && !q.cons.CIdle? && R.Peeks(q.cons, true)
    ensures Q.Indexed(q)
    ensures var q' := Q.ConsumerStep(q, true);
      && (if q'.cons.CIdle? then K.Dequeued(q', q.deq, true) else q'.deq == q.deq)
      && (SawEmpty(q') ==> q.enq == q.deq || SawEmpty(q))
      && (q'.cons.CIdle? && q'.answer.Refused? ==> SawEmpty(q))
  {
    hide Q.Inv, Q.ConsumerStep, R.Peeks, K.Dequeued;
    R.IsIndexed(q);
    K.StaysInCall(q, Q.Consume(true), true);
    K.SeesEmpty(q, Q.Consume(true));
  }

  lemma PeekStays<T>(s: State<T>, c: Choice<T>)
    requires Inv(s) && s.cons.CPeek?
    ensures Q.Indexed(s.q)
    ensures var s' := Step(s, c);
      && (if s'.cons.CIdle? then K.Dequeued(s'.q, s.q.deq, true) else s'.cons.CPeek? && s'.q.deq == s.q.deq)
      && (SawEmpty(s'.q) ==> s.q.enq == s.q.deq || SawEmpty(s.q))
      && (s'.cons.CIdle? && s'.q.answer.Refused? ==> SawEmpty(s.q))
  {
    StepKeepsInv(s, c);
    match c
    case Produce(x, canAlloc, mallocOk, junk) =>
      ProducerLeaves(s, x, canAlloc, mallocOk, junk);
      ProducerKeepsPeek(s, x, canAlloc, mallocOk, junk);
      hide Inv, ProduceStep, Q.Indexed, K.Dequeued;
    case Consume(peek, d, timeout) =>
      PeekStep(s.q);
      hide Inv, Q.Indexed, Q.ConsumerStep, K.Dequeued;
  }

  lemma ProducerKeepsPeek<T>(s: State<T>, x: T, canAlloc: bool, mallocOk: bool, junk: T)
    requires Inv(s)
    ensures Q.Indexed(s.q)
    ensures SawEmpty(ProduceStep(s, x, canAlloc, mallocOk, junk).q) <==> SawEmpty(s.q)
  {
    hide Q.Inv, Q.Indexed, Q.ProducerStep, R.Peeks, R.Promised;
    R.IsIndexed(s.q);
    R.ProducerEffect(s.q, x, canAlloc, mallocOk, junk);
  }

  lemma {:induction false} PeekingAnswers<T>(s: State<T>, run: seq<Choice<T>>)
    requires Inv(s) && EndsDequeue(s, run) && s.cons.CPeek?
    ensures var t := Exec(s, run);
      K.Dequeued(t.q, s.q.deq, true) && (t.q.answer.Refused? ==> EmptyOnce(s, run) || SawEmpty(s.q))
    decreases |run|
  {
    hide Step, Inv, K.Dequeued, SawEmpty;
    StepKeepsInv(s, run[0]);
    PeekStays(s, run[0]);
    if |run| == 1 {
      assert run[1..] == [];
    } else {
      PeekingAnswers(Step(s, run[0]), run[1..]);
    }
  }

  /** A call of peek, whatever the producer does meanwhile: it answers with the oldest element and removes none; or
      with null, and the queue was empty at some moment of the call. */
  lemma PeekAnswers<T>(s: State<T>, run: seq<Choice<T>>)
    requires Inv(s) && s.cons.CIdle? && EndsDequeue(s, run) && run[0].Consume? && run[0].peek
    ensures var t := Exec(s, run);
      K.Dequeued(t.q, s.q.deq, true) && (t.q.answer.Refused? ==> EmptyOnce(s, run))
  {
    hide Inv, K.Dequeued;
    StepKeepsInv(s, run[0]);
    StartsPeek(s);
    PeekingAnswers(Step(s, run[0]), run[1..]);
  }

  lemma StartsPeek<T>(s: State<T>)
    requires Inv(s) && s.cons.CIdle?
    ensures Q.Indexed(s.q)
    ensures var s' := InnerDequeue(s, true); s'.cons.CPeek? && s'.q.deq == s.q.deq && !SawEmpty(s'.q)
  {
    hide Q.Inv, Q.Indexed, Q.ConsumerStep, S.Inv, R.Promised;
    R.IsIndexed(s.q);
    StartsUnseen(s.q);
  }

  lemma StartsUnseen<T>(q: Q.State<T>)
    requires Q.Indexed(q) && q.cons.CIdle?
    ensures var q' := Q.ConsumerStep(q, true); !q'.cons.CIdle? && q'.deq == q.deq && !SawEmpty(q')
  {
    hide Q.Tables, Q.Succ;
  }

  /** The run ends with the first of its steps that leaves the producer idle. */
  ghost predicate EndsEnqueue<T>(s: State<T>, run: seq<Choice<T>>)
    requires Inv(s)
    decreases |run|
  {
    && run != []
    && var s' := Next(s, run[0]);
       if |run| == 1 then s'.prod.PIdle? else !s'.prod.PIdle? && EndsEnqueue(s', run[1..])
  }

  /** Inside a call that is to enqueue x: `enq` and `granted` are those of its start. */
  ghost predicate Enqueuing<T>(s: State<T>, enq: seq<T>, granted: int, x: T, canAlloc: bool) {
    match s.prod
    case PIdle => false
    case PInner => K.Asked(s.q.prod, x, canAlloc) && s.q.enq == enq && s.sema.granted == granted
    case PSignal => s.q.enq == enq + [x] && s.sema.granted == granted
    case PPost => s.q.enq == enq + [x] && s.sema.granted == granted + 1
  }

  /** What a finished call has done: stored x and signalled it, or neither. */
  ghost predicate Enqueued<T>(s: State<T>, enq: seq<T>, granted: int, x: T, canAlloc: bool, last: Choice<T>) {
    && s.prod.PIdle?
    && ((s.q.enq == enq + [x] && s.sema.granted == granted + 1)
        || (s.q.enq == enq && s.sema.granted == granted
            && (!canAlloc || (last.Produce? && !last.mallocOk))))
  }

  lemma InnerStays<T>(s: State<T>, enq: seq<T>, granted: int, c: Choice<T>, x: T, canAlloc: bool)
    requires Inv(s) && c.Produce? && (s.prod.PInner? || s.prod.PIdle?)
    requires if s.prod.PInner? then Enqueuing(s, enq, granted, x, canAlloc)
             else c.x == x && c.canAlloc == canAlloc && s.q.enq == enq && s.sema.granted == granted
    ensures Q.Indexed(s.q)
    ensures var s' := Inner(s, c.x, c.canAlloc, c.mallocOk, c.junk);
      if s'.prod.PIdle? then Enqueued(s', enq, granted, x, canAlloc, c) && !s.prod.PIdle?
      else Enqueuing(s', enq, granted, x, canAlloc)
  {
    hide Q.Inv, Q.Indexed, Q.ProducerStep, S.Inv, R.Peeks, R.Promised, K.Asked;
    R.IsIndexed(s.q);
    var q := Q.Produce(c.x, c.canAlloc, c.mallocOk, c.junk);
    if s.prod.PInner? { K.StaysAsked(s.q, q, x, canAlloc); } else { K.StartsAsked(s.q, q); }
  }

  lemma StaysEnqueuing<T>(s: State<T>, enq: seq<T>, granted: int, c: Choice<T>, x: T, canAlloc: bool)
    requires Inv(s) && Enqueuing(s, enq, granted, x, canAlloc)
    ensures Q.Indexed(s.q)
    ensures var s' := Step(s, c);
      if s'.prod.PIdle? then Enqueued(s', enq, granted, x, canAlloc, c)
      else Enqueuing(s', enq, granted, x, canAlloc)
  {
    StepKeepsInv(s, c);
    match c
    case Produce(y, mayAlloc, mallocOk, junk) =>
      if s.prod.PInner? { InnerStays(s, enq, granted, c, x, canAlloc); } else { SignalCounts(s); }
      hide Inv, Inner, Signal, Q.Indexed, K.Asked;
    case Consume(peek, d, timeout) =>
      ConsumerLeaves(s, peek, d, timeout);
      hide Inv, ConsumeStep, Q.Indexed, K.Asked;
  }

  lemma SignalCounts<T>(s: State<T>)
    requires Inv(s) && (s.prod.PSignal? || s.prod.PPost?)
    ensures var s' := Signal(s);
      && s'.q == s.q && s'.sema.granted == s.sema.granted + (if s.prod.PSignal? then 1 else 0)
      && (s'.prod.PIdle? || (s'.prod.PPost? && s.prod.PSignal?))
  {
    hide Q.Inv, R.Peeks, R.Promised;
  }

  lemma ConsumerLeaves<T>(s: State<T>, peek: bool, call: S.Call, timeout: bool)
    requires Inv(s)
    ensures Q.Indexed(s.q)
    ensures var s' := ConsumeStep(s, peek, call, timeout);
      && s'.prod == s.prod && s'.q.prod == s.q.prod && s'.q.enq == s.q.enq && s'.sema.granted == s.sema.granted
  {
    hide Q.Inv, Q.Indexed, Q.ConsumerStep, S.Inv, R.Promised;
    R.IsIndexed(s.q);
    if s.cons.CIdle? {
      R.ConsumerEffect(s.q, true);
    } else if s.cons.CPeek? {
      R.ConsumerEffect(s.q, true);
    } else if s.cons.CStart? || s.cons.CInner? {
      R.ConsumerEffect(s.q, false);
    }
    Taken(s.sema, call, timeout);
    hide S.WaiterStep;
  }

  lemma {:induction false} EnqueuingAnswers<T>(s: State<T>, enq: seq<T>, granted: int, run: seq<Choice<T>>, x: T,
                                               canAlloc: bool)
    requires Inv(s) && EndsEnqueue(s, run) && Enqueuing(s, enq, granted, x, canAlloc)
    ensures Enqueued(Exec(s, run), enq, granted, x, canAlloc, run[|run| - 1])
    decreases |run|
  {
    hide Step, Inv, Enqueuing, Enqueued;
    StaysEnqueuing(s, enq, granted, run[0], x, canAlloc);
    StepKeepsInv(s, run[0]);
    if |run| == 1 {
      assert run[1..] == [];
    } else {
      EnqueuingAnswers(Step(s, run[0]), enq, granted, run[1..], x, canAlloc);
    }
  }

  /** A call of enqueue or try_enqueue, whatever the consumer does meanwhile: it stores x and signals once, or it
      does neither, and that only if it may not allocate, or if it is out of memory. */
  lemma EnqueueAnswers<T>(s: State<T>, run: seq<Choice<T>>, x: T, canAlloc: bool)
    requires Inv(s) && s.prod.PIdle? && EndsEnqueue(s, run)
    requires run[0].Produce? && run[0].x == x && run[0].canAlloc == canAlloc
    ensures Enqueued(Exec(s, run), s.q.enq, s.sema.granted, x, canAlloc, run[|run| - 1])
  {
    hide Inv, Enqueuing, Enqueued;
    StepKeepsInv(s, run[0]);
    InnerStays(s, s.q.enq, s.sema.granted, run[0], x, canAlloc);
    EnqueuingAnswers(Step(s, run[0]), s.q.enq, s.sema.granted, run[1..], x, canAlloc);
  }
}
