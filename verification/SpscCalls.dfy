/** What one call on the single-producer/single-consumer queue does, from the step that starts it to the one that
    ends it, whatever the other thread does in between. */
module SpscCalls {
  import opened SpscMachine
  import opened SpscRuns

  /** The state after one step. */
  ghost function Next<T>(s: State<T>, c: Choice<T>): (r: State<T>)
    requires Inv(s)
    ensures Inv(r)
  {
    StepKeepsInv(s, c);
    Step(s, c)
  }

  lemma DeqBound<T>(s: State<T>)
    requires Inv(s)
    ensures s.deq <= s.enq
  {
    hide Indexed, RingInv, ProducerInv, ConsumerInv, Cells;
  }

  // ---- enqueuing --------------------------------------------------------------------------------

  /** The run ends with the first of its steps that leaves the producer idle. */
  ghost predicate EndsEnqueue<T>(s: State<T>, run: seq<Choice<T>>)
    requires Inv(s)
    decreases |run|
  {
    && run != []
    && var s' := Next(s, run[0]);
       if |run| == 1 then s'.prod.PIdle? else !s'.prod.PIdle? && EndsEnqueue(s', run[1..])
  }

  /** A whole call that is to enqueue x, and whether it may allocate. */
  ghost predicate Enqueues<T>(s: State<T>, run: seq<Choice<T>>, x: T, canAlloc: bool)
    requires Inv(s)
  {
    s.prod.PIdle? && EndsEnqueue(s, run) && run[0].Produce? && run[0].x == x && run[0].canAlloc == canAlloc
  }

  /** Inside a call that is to enqueue x. */
  ghost predicate Asked<T>(p: Producer<T>, x: T, canAlloc: bool) {
    && !p.PIdle? && p.x == x && (p.PReadFront? || p.PCheckNext? ==> p.canAlloc == canAlloc)
    && (p.PAlloc? || p.PLink? ==> canAlloc)
  }

  /** What the last step of a call has done: `enq` is what had been enqueued when the call began. */
  ghost predicate Answered<T>(s: State<T>, enq: seq<T>, x: T, canAlloc: bool, last: Choice<T>) {
    && s.prod.PIdle?
    && match s.reply
       case Accepted => s.enq == enq + [x]
       case Full => s.enq == enq && !canAlloc
       case NoMemory => s.enq == enq && canAlloc && last.Produce? && !last.mallocOk
       case NoReply => false
  }

  lemma StartsAsked<T>(s: State<T>, c: Choice<T>)
    requires Indexed(s) && s.prod.PIdle? && c.Produce?
    ensures var s' := Step(s, c); !s'.prod.PIdle? && Asked(s'.prod, c.x, c.canAlloc) && s'.enq == s.enq
  {
    hide Tables, Succ;
  }

  lemma StaysAsked<T>(s: State<T>, c: Choice<T>, x: T, canAlloc: bool)
    requires Indexed(s) && Asked(s.prod, x, canAlloc)
    ensures var s' := Step(s, c);
      if s'.prod.PIdle? then Answered(s', s.enq, x, canAlloc, c) else Asked(s'.prod, x, canAlloc) && s'.enq == s.enq
  {
    hide Tables, Succ, NewBlock, Inserted, Rotated;
    match c
    case Produce(y, mayAlloc, mallocOk, junk) => hide ConsumerStep;
    case Consume(peek) => hide ProducerStep; ConsumerRankFalls(s, peek);
  }

  lemma {:induction false} AskedAnswers<T>(s: State<T>, run: seq<Choice<T>>, x: T, canAlloc: bool)
    requires Inv(s) && EndsEnqueue(s, run) && Asked(s.prod, x, canAlloc)
    ensures Answered(Exec(s, run), s.enq, x, canAlloc, run[|run| - 1])
    decreases |run|
  {
    hide Step, Inv, Answered, Asked;
    IsIndexed(s);
    StepKeepsInv(s, run[0]);
    StaysAsked(s, run[0], x, canAlloc);
    var s' := Step(s, run[0]);
    if |run| == 1 {
      assert run[1..] == [];
    } else {
      AskedAnswers(s', run[1..], x, canAlloc);
    }
  }

  /** A call that is to enqueue x, whatever the consumer does meanwhile: accepted, it has enqueued x and nothing
      else; refused, nothing, and that only if it may not allocate, or if it is out of memory. */
  lemma EnqueueAnswers<T>(s: State<T>, run: seq<Choice<T>>, x: T, canAlloc: bool)
    requires Inv(s) && Enqueues(s, run, x, canAlloc)
    ensures Answered(Exec(s, run), s.enq, x, canAlloc, run[|run| - 1])
  {
    hide Step, Inv, Answered, Asked;
    IsIndexed(s);
    StepKeepsInv(s, run[0]);
    StartsAsked(s, run[0]);
    AskedAnswers(Step(s, run[0]), run[1..], x, canAlloc);
  }

  // ---- dequeuing --------------------------------------------------------------------------------

  /** The run ends with the first of its steps that leaves the consumer idle. */
  ghost predicate EndsDequeue<T>(s: State<T>, run: seq<Choice<T>>)
    requires Inv(s)
    decreases |run|
  {
    && run != []
    && var s' := Next(s, run[0]);
       if |run| == 1 then s'.cons.CIdle? else !s'.cons.CIdle? && EndsDequeue(s', run[1..])
  }

  /** At some moment before the end of the run the queue is empty. */
  ghost predicate EmptyOnce<T>(s: State<T>, run: seq<Choice<T>>)
    requires Inv(s)
    decreases |run|
  {
    run != [] && (s.enq == s.deq || EmptyOnce(Next(s, run[0]), run[1..]))
  }

  /** What a finished call has done: `deq` is what had been dequeued when it began. */
  ghost predicate Dequeued<T>(s: State<T>, deq: seq<T>, peek: bool) {
    && s.cons.CIdle?
    && match s.answer
       case Took(v) => !peek && s.deq == deq + [v] <= s.enq
       case Peeked(v) => peek && s.deq == deq && deq + [v] <= s.enq
       case Refused => s.deq == deq
       case NoAnswer => false
  }

  lemma StaysInCall<T>(s: State<T>, c: Choice<T>, peek: bool)
    requires Inv(s) && !s.cons.CIdle? && Peeks(s.cons, peek)
    ensures var s' := Step(s, c);
      if s'.cons.CIdle? then c.Consume? && Dequeued(s', s.deq, peek)
      else Peeks(s'.cons, peek) && s'.deq == s.deq
  {
    hide Inv, ProducerStep, ConsumerStep, Peeks;
    IsIndexed(s);
    match c
    case Produce(x, canAlloc, mallocOk, junk) => ProducerEffect(s, x, canAlloc, mallocOk, junk);
    case Consume(p) =>
      SameCall(s, p, peek);
      ConsumerEffect(s, peek);
      DeqBound(s);
      if ConsumerStep(s, peek).cons.CIdle? { ConsumerAnswers(s, peek); }
  }

  lemma SameCall<T>(s: State<T>, p: bool, peek: bool)
    requires Indexed(s) && !s.cons.CIdle?
    ensures ConsumerStep(s, p) == ConsumerStep(s, peek)
  {
    hide Tables, Succ, Rotated;
  }

  /** The one place where a call sees the queue empty. */
  lemma SeesEmpty<T>(s: State<T>, c: Choice<T>)
    requires Inv(s)
    ensures var s' := Step(s, c);
      && (s'.cons.CReadTailBlock? && s'.sawEmpty ==> s.enq == s.deq || (s.cons.CReadTailBlock? && s.sawEmpty))
      && (!s.cons.CIdle? && s'.cons.CIdle? && s'.answer.Refused? ==> s.cons.CReadTailBlock? && s.sawEmpty)
  {
    hide Inv, ProducerStep, ConsumerStep;
    IsIndexed(s);
    DeqBound(s);
    match c
    case Produce(x, canAlloc, mallocOk, junk) => ProducerEffect(s, x, canAlloc, mallocOk, junk);
    case Consume(p) =>
      ReadsTail(s, p);
      if ConsumerStep(s, p).cons.CIdle? && ConsumerStep(s, p).answer.Refused? {
        ConsumerAnswers(s, p);
        RefusesThere(s, p);
      }
  }

  lemma ReadsTail<T>(s: State<T>, p: bool)
    requires Indexed(s)
    ensures ConsumerStep(s, p).cons.CReadTailBlock? && ConsumerStep(s, p).sawEmpty ==> |s.enq| == |s.deq|
  {
    hide Tables, Succ, Rotated;
  }

  lemma {:induction false} InCallAnswers<T>(s: State<T>, run: seq<Choice<T>>, peek: bool)
    requires Inv(s) && EndsDequeue(s, run) && !s.cons.CIdle? && Peeks(s.cons, peek)
    ensures var t := Exec(s, run);
      && Dequeued(t, s.deq, peek)
      && (t.answer.Refused? ==> EmptyOnce(s, run) || (s.cons.CReadTailBlock? && s.sawEmpty))
    decreases |run|
  {
    hide Step, Inv, Dequeued, Peeks;
    IsIndexed(s);
    StepKeepsInv(s, run[0]);
    StaysInCall(s, run[0], peek);
    SeesEmpty(s, run[0]);
    var s' := Step(s, run[0]);
    if |run| == 1 {
      assert run[1..] == [];
    } else {
      InCallAnswers(s', run[1..], peek);
    }
  }

  /** A call of try_dequeue or pop (or of peek), whatever the producer does meanwhile: it answers with the oldest
      element, and has removed it and no other (or none); or it refuses, has removed none, and the queue was
      empty at some moment of the call. */
  lemma DequeueAnswers<T>(s: State<T>, run: seq<Choice<T>>, peek: bool)
    requires Inv(s) && s.cons.CIdle? && EndsDequeue(s, run) && run[0] == Consume(peek)
    ensures var t := Exec(s, run);
      && Dequeued(t, s.deq, peek)
      && (t.answer.Refused? ==> EmptyOnce(s, run))
  {
    hide Step, Inv, Dequeued;
    IsIndexed(s);
    StepKeepsInv(s, run[0]);
    StartsInCall(s, peek);
    InCallAnswers(Step(s, run[0]), run[1..], peek);
  }

  lemma StartsInCall<T>(s: State<T>, peek: bool)
    requires Indexed(s) && s.cons.CIdle?
    ensures var s' := Step(s, Consume(peek));
      !s'.cons.CIdle? && Peeks(s'.cons, peek) && s'.deq == s.deq && !s'.cons.CReadTailBlock?
  {
    hide Tables, Succ, Rotated;
  }

  // ---- what goes in and what comes out ------------------------------------------------------------

  /** The elements given to the calls that were accepted over a run, in order; x is the one given to the call that is
      under way at its start, if there is one. */
  ghost function Given<T>(s: State<T>, run: seq<Choice<T>>, x: T): seq<T>
    requires Inv(s)
    decreases |run|
  {
    if run == [] then []
    else
      var c, s' := run[0], Next(s, run[0]);
      var asked := if c.Produce? && s.prod.PIdle? then c.x else x;
      var accepted := !s.prod.PIdle? && s'.prod.PIdle? && s'.reply.Accepted?;
      (if accepted then [asked] else []) + Given(s', run[1..], asked)
  }

  /** The elements that the calls of try_dequeue and pop answered with over a run, in order. */
  ghost function Taken<T>(s: State<T>, run: seq<Choice<T>>): seq<T>
    requires Inv(s)
    decreases |run|
  {
    if run == [] then []
    else
      var s' := Next(s, run[0]);
      (if !s.cons.CIdle? && s'.cons.CIdle? && s'.answer.Took? then [s'.answer.v] else []) + Taken(s', run[1..])
  }

  lemma OneGiven<T>(s: State<T>, c: Choice<T>, x: T)
    requires Indexed(s) && (s.prod.PIdle? || exists canAlloc :: Asked(s.prod, x, canAlloc))
    ensures var s' := Step(s, c); var asked := if c.Produce? && s.prod.PIdle? then c.x else x;
      && s'.enq == s.enq + (if !s.prod.PIdle? && s'.prod.PIdle? && s'.reply.Accepted? then [asked] else [])
      && (s'.prod.PIdle? || exists canAlloc :: Asked(s'.prod, asked, canAlloc))
  {
    hide Tables, Step, Answered, Asked;
    if !s.prod.PIdle? {
      var canAlloc :| Asked(s.prod, x, canAlloc);
      StaysAsked(s, c, x, canAlloc);
      AnsweredIs(Step(s, c), s.enq, x, canAlloc, c);
    } else if c.Produce? {
      StartsAsked(s, c);
    } else {
      StaysIdle(s, c);
    }
  }

  lemma AnsweredIs<T>(s: State<T>, enq: seq<T>, x: T, canAlloc: bool, last: Choice<T>)
    ensures Answered(s, enq, x, canAlloc, last) ==> s.enq == enq + (if s.reply.Accepted? then [x] else [])
  {
  }

  lemma StaysIdle<T>(s: State<T>, c: Choice<T>)
    requires Indexed(s) && s.prod.PIdle? && c.Consume?
    ensures Step(s, c).prod.PIdle? && Step(s, c).enq == s.enq
  {
    hide Tables, Rotated;
  }

  lemma {:induction false} EnqIsGiven<T>(s: State<T>, run: seq<Choice<T>>, x: T)
    requires Inv(s) && (s.prod.PIdle? || exists canAlloc :: Asked(s.prod, x, canAlloc))
    ensures Exec(s, run).enq == s.enq + Given(s, run, x)
    decreases |run|
  {
    hide Inv, Step, Asked;
    if run != [] {
      IsIndexed(s);
      OneGiven(s, run[0], x);
      EnqIsGiven(Next(s, run[0]), run[1..], if run[0].Produce? && s.prod.PIdle? then run[0].x else x);
    }
  }

  lemma OneTaken<T>(s: State<T>, c: Choice<T>)
    requires Inv(s)
    ensures var s' := Next(s, c);
      s'.deq == s.deq + if !s.cons.CIdle? && s'.cons.CIdle? && s'.answer.Took? then [s'.answer.v] else []
  {
    hide Inv, ProducerStep, ConsumerStep, Peeks;
    IsIndexed(s);
    match c
    case Produce(x, canAlloc, mallocOk, junk) => ProducerEffect(s, x, canAlloc, mallocOk, junk);
    case Consume(p) =>
      DeqStep(s, p);
      if ConsumerStep(s, p).cons.CIdle? { ConsumerAnswers(s, p); }
  }

  lemma DeqStep<T>(s: State<T>, p: bool)
    requires Indexed(s)
    ensures var s' := ConsumerStep(s, p); !s'.cons.CIdle? ==> s'.deq == s.deq
    ensures s.cons.CIdle? ==> !ConsumerStep(s, p).cons.CIdle?
  {
    hide Tables, Succ, Rotated;
  }

  lemma {:induction false} DeqIsTaken<T>(s: State<T>, run: seq<Choice<T>>)
    requires Inv(s)
    ensures Exec(s, run).deq == s.deq + Taken(s, run)
    decreases |run|
  {
    hide Inv, Step;
    if run != [] {
      OneTaken(s, run[0]);
      DeqIsTaken(Next(s, run[0]), run[1..]);
    }
  }

  /** Every run of a new queue: what calls have answered with, then what the live blocks hold, is what the accepted
      calls were given, in order, and no assertion of the code can fail at the next step. */
  lemma QueueIsFifo<T>(s0: State<T>, n: nat, size: nat, run: seq<Choice<T>>, x: T)
    requires Initial(s0, n, size)
    ensures Inv(s0)
    ensures var s := Exec(s0, run);
      && Given(s0, run, x) == Taken(s0, run) + Concat(s.blocks, s.ring, s.used)
      && s.enq == Given(s0, run, x) && s.deq == Taken(s0, run)
      && AssertsHold(s)
  {
    hide Concat, AssertsHold, Inv;
    InitialInv(s0, n, size);
    EnqIsGiven(s0, run, x);
    DeqIsTaken(s0, run);
    assert [] + Given(s0, run, x) == Given(s0, run, x) && [] + Taken(s0, run) == Taken(s0, run);
    InOrder(Exec(s0, run));
  }

  lemma InOrder<T>(s: State<T>)
    requires Inv(s)
    ensures s.enq == s.deq + Concat(s.blocks, s.ring, s.used) && AssertsHold(s)
  {
    hide Concat;
    ConsumerAsserts(s);
    ProducerAsserts(s);
  }
}
