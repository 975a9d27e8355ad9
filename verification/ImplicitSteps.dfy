/** Every step of ImplicitProducer keeps its invariant. */
module ImplicitSteps {
  import C = DequeueCounters
  import opened Modulo
  import opened ImplicitProducer

  // ---- ring positions and sets of slots ---------------------------------------------------------

  lemma PosShift(h: Header, k: int, d: int)
    requires 0 < Cap(h)
    ensures (Pos(h, k) + d) % Cap(h) == Pos(h, k + d)
  {
    ModAdd(k - h.base, d, Cap(h));
  }

  lemma PosRound(h: Header, k: int)
    requires 0 < Cap(h)
    ensures Pos(h, k + Cap(h)) == Pos(h, k)
  {
    ModOnce(k - h.base, Cap(h));
  }

  lemma AllSlots(xs: set<nat>, n: nat, k: nat)
    requires C.Below(xs, n) && |xs| == n && k < n
    ensures k in xs
  {
    if k !in xs {
      assert |xs + {k}| == n + 1;
      C.SetBelow(xs + {k}, n);
    }
  }

  /** A block with an element still in it, or yet to be counted out, is not drained. */
  lemma NotDrained(u: Use, k: nat)
    requires SlotsOk(u) && k < BLOCK_SIZE && k !in u.fin
    ensures u.stage.Active? && |u.fin| < BLOCK_SIZE
  {
    C.SetBelow(u.fin, BLOCK_SIZE);
    if |u.fin| == BLOCK_SIZE { AllSlots(u.fin, BLOCK_SIZE, k); }
  }

  // ---- frames -----------------------------------------------------------------------------------

  ghost predicate SameThreads<T>(s: State<T>, s': State<T>, t: int)
    requires Sized(s) && Sized(s')
  {
    && |s'.jobs| == |s.jobs|
    && forall u :: 0 <= u < |s.jobs| && u != t ==> s'.jobs[u] == s.jobs[u] && s'.c.pcs[u] == s.c.pcs[u]
  }

  ghost predicate SameBlocks<T>(s: State<T>, s': State<T>, b: int)
    requires Sized(s) && Sized(s')
  {
    && |s.owner| <= |s'.owner|
    && forall a :: 0 <= a < |s.owner| && a != b ==>
         s'.done[a] == s.done[a] && s'.mem[a] == s.mem[a] && s'.owner[a] == s.owner[a]
  }

  ghost predicate SameUses<T>(s: State<T>, s': State<T>, x: int) {
    && |s.uses| <= |s'.uses| && (|s'.uses| == |s.uses| || (|s'.uses| == |s.uses| + 1 && x == |s.uses|))
    && forall j :: 0 <= j < |s.uses| && j != x ==> s'.uses[j] == s.uses[j]
  }

  predicate Ending<T>(s: State<T>, t: int)
    requires Sized(s)
  {
    0 <= t < |s.jobs| && s.c.pcs[t].Have? && (s.jobs[t].JClear? || s.jobs[t].JFree?)
  }

  lemma KeepUses<T>(s: State<T>, s': State<T>, t: int, x: int, b: int)
    requires Sized(s) && Sized(s') && Uses(s) && SameThreads(s, s', t) && SameBlocks(s, s', b) && SameUses(s, s', x)
    requires 0 <= b < |s.owner| ==> !s.owner[b].UsedBy? || s.owner[b].j == x
    requires s.enq <= s'.enq && s.c.head <= s'.c.head
    requires s'.enq == s.enq || BLOCK_SIZE * x == BLOCK_SIZE * (|s.uses| - 1) <= |s.enq|
    requires Ending(s, t) ==> s.c.pcs[t].i / BLOCK_SIZE == x
    requires 0 <= x < |s'.uses| ==>
      UseOk(s'.uses[x], x, s'.done, s'.mem, s'.owner, s'.enq, s'.c.head)
          && Placed(s'.uses[x].stage, x, s'.c.pcs, s'.jobs)
    ensures Uses(s')
  {
    forall j | 0 <= j < |s'.uses|
      ensures UseOk(s'.uses[j], j, s'.done, s'.mem, s'.owner, s'.enq, s'.c.head)
          && Placed(s'.uses[j].stage, j, s'.c.pcs, s'.jobs)
    {
      if j != x {
        assert UseOk(s.uses[j], j, s.done, s.mem, s.owner, s.enq, s.c.head);
        hide SlotsOk;
      }
    }
  }

  lemma KeepBlocks<T>(s: State<T>, s': State<T>, x: int, b: int)
    requires Sized(s) && Sized(s') && Blocks(s) && SameBlocks(s, s', b) && SameUses(s, s', x)
    requires |s'.owner| == |s.owner| || (|s'.owner| == |s.owner| + 1 && b == |s.owner|)
    requires 0 <= x < |s.uses| ==>
        || s.uses[x].block == b
        || (s'.uses[x].block == s.uses[x].block && s'.uses[x].stage.Released? == s.uses[x].stage.Released?)
    requires s.prod.PReset? || s.prod.PVal? ==>
        ((s'.prod.PReset? || s'.prod.PVal?) && s'.prod.b == s.prod.b) || b == s.prod.b
    requires 0 <= b < |s'.owner| ==> BlockOk(s'.owner[b], b, s'.mem[b], s'.uses, s'.prod)
    ensures Blocks(s')
  {
    hide AllRaw;
    forall a | 0 <= a < |s'.owner| ensures BlockOk(s'.owner[a], a, s'.mem[a], s'.uses, s'.prod) {
      if a != b { assert BlockOk(s.owner[a], a, s.mem[a], s.uses, s.prod); }
    }
  }

  /** A change of one block's record that concerns only slot k of it, and thread t. */
  ghost predicate UseStep(o: Use, w: Use, t: int, k: int) {
    && w.block == o.block
    && (forall u: nat :: u != t ==>
        (o.stage == Drained(u) ==> w.stage == Drained(u)) && (o.stage == Cleared(u) ==> w.stage == Cleared(u)))
    && o.fin <= w.fin
    && (forall i: nat :: i < BLOCK_SIZE && i != k && o.stage.Active? && i !in o.taken ==>
         w.stage.Active? && i !in w.taken)
    && (forall i: nat :: i < BLOCK_SIZE && i != k && o.stage.Active? && i !in o.fin && i in o.taken ==>
         w.stage.Active? && i !in w.fin && i in w.taken)
  }

  ghost predicate SameHeaders(headers: seq<Header>, headers': seq<Header>, uses: seq<Use>) {
    && |headers| <= |headers'|
    && forall h :: 0 <= h < |headers| ==>
    && headers'[h].index == headers[h].index && headers'[h].base == headers[h].base
              && headers[h].hi <= headers'[h].hi
         && (headers'[h].lo == headers[h].lo
              || (headers'[h].lo == headers[h].lo + 1 && headers[h].lo < |uses| && Dead(uses[headers[h].lo])))
  }

  lemma OtherJob<T>(s: State<T>, s': State<T>, u: nat, t: int, x: int, k: int)
    requires Sized(s) && Sized(s') && u < |s.jobs| == |s'.jobs| && s'.jobs[u] == s.jobs[u] && s'.c.pcs[u] == s.c.pcs[u]
    requires JobOk(u, s.c.pcs[u], s.jobs[u], s.headers, s.slots, s.uses, s.enq)
    requires SameHeaders(s.headers, s'.headers, s.uses) && s.slots <= s'.slots && s.enq <= s'.enq && SameUses(s, s', x)
    requires u != t
    requires 0 <= x < |s.uses| ==> UseStep(s.uses[x], s'.uses[x], t, k)
    requires s.c.pcs[u].Have? && s.c.pcs[u].i / BLOCK_SIZE == x < |s.uses| ==> s.c.pcs[u].i % BLOCK_SIZE != k
    ensures JobOk(u, s'.c.pcs[u], s'.jobs[u], s'.headers, s'.slots, s'.uses, s'.enq)
  {
    if s.jobs[u].JTail? && s.c.pcs[u].Have? {
      assert s.jobs[u].h < |s'.headers|;
    }
  }

  lemma KeepJobs<T>(s: State<T>, s': State<T>, t: int, x: int, k: int)
    requires Sized(s) && Sized(s') && Jobs(s) && SameThreads(s, s', t)
    requires SameHeaders(s.headers, s'.headers, s.uses) && s.slots <= s'.slots && s.enq <= s'.enq && SameUses(s, s', x)
    requires 0 <= x < |s.uses| ==>
      && UseStep(s.uses[x], s'.uses[x], t, k) && 0 <= t < |s.jobs| && s.c.pcs[t].Have? && C.Threads(s.c)
      && s.c.pcs[t].i / BLOCK_SIZE == x && s.c.pcs[t].i % BLOCK_SIZE == k
    requires 0 <= t < |s.jobs| ==> JobOk(t, s'.c.pcs[t], s'.jobs[t], s'.headers, s'.slots, s'.uses, s'.enq)
    ensures Jobs(s')
  {
    forall u | 0 <= u < |s'.jobs| ensures JobOk(u, s'.c.pcs[u], s'.jobs[u], s'.headers, s'.slots, s'.uses, s'.enq) {
      if u != t {
        assert JobOk(u, s.c.pcs[u], s.jobs[u], s.headers, s.slots, s.uses, s.enq);
        assert 0 <= x < |s.uses| && s.c.pcs[u].Have? && s.c.pcs[u].i / BLOCK_SIZE == x ==> s.c.pcs[u].i != s.c.pcs[t].i;
        hide JobOk, UseStep, SameHeaders, C.Threads;
        OtherJob(s, s', u, t, x, k);
      }
    }
  }

  /** Whoever claimed an index is still at it, or has moved it out. */
  lemma KeepClaimed<T>(s: State<T>, s': State<T>, t: int, x: int)
    requires Sized(s) && Sized(s') && Claimed(s) && SameThreads(s, s', t) && SameUses(s, s', x)
    requires 0 <= x < |s.uses| ==> s.uses[x].fin <= s'.uses[x].fin
    requires (s'.claimer == s.claimer && s'.c.head == s.c.head)
      || (0 <= t && s'.claimer == s.claimer + [t] && s'.c.head == s.c.head + 1
          && ClaimOk(s.c.head, t, s'.c.pcs, s'.jobs, s'.uses))
    requires 0 <= t < |s.jobs| && s.c.pcs[t].Have? && !s.jobs[t].JDone? && !Ending(s, t) ==>
      ClaimOk(s.c.pcs[t].i, t, s'.c.pcs, s'.jobs, s'.uses)
    ensures Claimed(s')
  {
    forall i | 0 <= i < |s'.claimer| ensures ClaimOk(i, s'.claimer[i], s'.c.pcs, s'.jobs, s'.uses) {
      if i < |s.claimer| { assert ClaimOk(i, s.claimer[i], s.c.pcs, s.jobs, s.uses); }
    }
  }

  // ---- dequeuers: steps that change no block ------------------------------------------------------

  lemma KeepLocal<T>(s: State<T>, s': State<T>, t: nat)
    requires Inv(s) && s' == s.(c := s'.c, jobs := s'.jobs, claimer := s'.claimer) && C.Inv(s'.c) && Sized(s')
        && Claimed(s')
    requires t < |s.jobs| && SameThreads(s, s', t) && s'.c.tail == s.c.tail && s.c.head <= s'.c.head
    requires JobOk(t, s'.c.pcs[t], s'.jobs[t], s'.headers, s'.slots, s'.uses, s'.enq)
    requires !Ending(s, t)
    ensures Inv(s')
  {
    hide C.Inv, Keyed, Valued, HeadersOk, JobOk, UseOk, BlockOk, Claimed;
    assert Uses(s') by { KeepUses(s, s', t, -1, -1); }
    assert Jobs(s') by { KeepJobs(s, s', t, -1, 0); }
    assert Blocks(s') by { KeepBlocks(s, s', -1, -1); }
  }

  /** The elements published fit the blocks begun. */
  lemma TailBound<T>(s: State<T>)
    requires Sized(s) && ProdOk(s)
    ensures s.c.tail <= |s.enq| && s.c.tail <= BLOCK_SIZE * |s.uses|
  {
  }

  /** What a step on the counters changes: the thread's own place, and the head when it claims an index. */
  lemma CountFrame(c: C.State, t: nat)
    requires t < |c.pcs| && !c.pcs[t].Have?
    ensures var c' := C.Step(c, t);
      && c'.tail == c.tail && |c'.pcs| == |c.pcs| && (forall u :: 0 <= u < |c.pcs| && u != t ==> c'.pcs[u] == c.pcs[u])
      && (if c.pcs[t].Claim? then c'.pcs[t] == C.Have(c.head) && c'.head == c.head + 1
          else !c'.pcs[t].Have? && c'.head == c.head)
  {
  }

  /** The index about to be claimed is that of an element not yet moved out. */
  lemma ClaimFacts<T>(s: State<T>, t: nat)
    requires Inv(s) && t < |s.jobs| && s.c.pcs[t].Claim?
    ensures var i := s.c.head; var j := i / BLOCK_SIZE;
      && i < s.c.tail <= |s.enq| && j < |s.uses| && s.uses[j].stage.Active? && i % BLOCK_SIZE !in s.uses[j].taken
      && i % BLOCK_SIZE !in s.uses[j].fin
  {
    hide C.Inv, C.Threads, C.Step, IndexOk, Jobs, Blocks, Claimed, ProdOk;
    C.ClaimedIndex(s.c, t);
    TailBound(s);
    var j := s.c.head / BLOCK_SIZE;
    assert UseOk(s.uses[j], j, s.done, s.mem, s.owner, s.enq, s.c.head);
    NotDrained(s.uses[j], s.c.head % BLOCK_SIZE);
  }

  lemma KeepCount<T>(s: State<T>, t: nat)
    requires Inv(s) && t < |s.jobs| && !s.c.pcs[t].Have?
    ensures Inv(Count(s, t))
  {
    hide C.Inv, C.Threads, C.Step, IndexOk, Jobs, Uses, Blocks, Claimed, ProdOk;
    var s' := Count(s, t);
    C.StepKeepsInv(s.c, t);
    CountFrame(s.c, t);
    if s.c.pcs[t].Claim? { ClaimFacts(s, t); }
    KeepClaimed(s, s', t, -1);
    KeepLocal(s, s', t);
  }

  /** A block with a pending element is among those the current index still knows, and its entry holds it. */
  lemma LiveInIndex<T>(s: State<T>, j: nat)
    requires IndexOk(s) && j < |s.uses| && !Dead(s.uses[j])
    ensures Cur(s).lo <= j < Cur(s).hi && At(Cur(s), j) == s.slots[j] < |s.vals|
    ensures s.vals[s.slots[j]] == s.uses[j].block
  {
  }

  /** The key found at a tail loaded earlier is still that of the block that was last then, and the entry
      reached from there is that of the block sought: the assertions of get_block_index_index_for_index. */
  lemma LookupEntry<T>(s: State<T>, t: nat)
    requires IndexOk(s) && t < |s.jobs| && s.c.pcs[t].Have? && s.jobs[t].JKey?
    requires JobOk(t, s.c.pcs[t], s.jobs[t], s.headers, s.slots, s.uses, s.enq)
    ensures JobInRange(s, t)
    ensures var h := s.headers[s.jobs[t].h];
      var base, j := s.keys[h.index[s.jobs[t].at]], s.c.pcs[t].i / BLOCK_SIZE;
      && base == BLOCK_SIZE * s.jobs[t].m != INVALID && LoadKey(s, t).jobs[t] == JValue(s.slots[j])
      && s.keys[s.slots[j]] == BLOCK_SIZE * j && s.vals[s.slots[j]] == s.uses[j].block != NULL
  {
    var j, m := s.c.pcs[t].i / BLOCK_SIZE, s.jobs[t].m;
    var h := s.headers[s.jobs[t].h];
    LiveInIndex(s, j);
    assert At(Cur(s), m) == s.slots[m];
    PosShift(h, m, j - m);
    hide HeadersOk, Keyed, Valued;
    var start := s.c.pcs[t].i - s.c.pcs[t].i % BLOCK_SIZE;
    assert start == BLOCK_SIZE * j;
    assert (BLOCK_SIZE * j - BLOCK_SIZE * m) / BLOCK_SIZE == j - m;
  }

  /** A step of the lookup: the dequeuer's own place is all that changes. */
  lemma KeepLookup<T>(s: State<T>, s': State<T>, t: nat)
    requires Inv(s) && t < |s.jobs| && s' == s.(jobs := s'.jobs) && Sized(s') && SameThreads(s, s', t)
    requires JobOk(t, s'.c.pcs[t], s'.jobs[t], s'.headers, s'.slots, s'.uses, s'.enq)
    requires s.c.pcs[t].Have? && !s.jobs[t].JDone? && !Ending(s, t) && !s'.jobs[t].JDone? && !Ending(s', t)
    ensures Inv(s')
  {
    hide C.Inv, IndexOk, Uses, Blocks, Jobs, ProdOk;
    assert |s'.c.pcs| == |s'.jobs| && C.Inv(s.c);
    assert ClaimOk(s.c.pcs[t].i, t, s'.c.pcs, s'.jobs, s'.uses) by { hide Inv; }
    assert Claimed(s') by { KeepClaimed(s, s', t, -1); }
    hide Inv, Claimed;
    KeepLocal(s, s', t);
  }

  lemma KeepLoadHeader<T>(s: State<T>, t: nat)
    requires Inv(s) && JobInRange(s, t) && s.jobs[t].JHeader?
    ensures Inv(LoadHeader(s, t))
  {
    assert JobOk(t, s.c.pcs[t], s.jobs[t], s.headers, s.slots, s.uses, s.enq);
    LiveInIndex(s, s.c.pcs[t].i / BLOCK_SIZE);
    KeepLookup(s, LoadHeader(s, t), t);
  }

  lemma TailIsLast<T>(s: State<T>, h: nat, j: nat)
    requires IndexOk(s) && ProdOk(s) && h < |s.headers| && s.headers[h].lo <= j < s.headers[h].hi && j < |s.uses|
    ensures j <= TailBlock(s, h) < |s.slots| && s.headers[h].tail == Pos(s.headers[h], TailBlock(s, h))
    ensures At(s.headers[h], TailBlock(s, h)) == s.slots[TailBlock(s, h)] && At(s.headers[h], j) == s.slots[j]
  {
    hide Keyed, Valued, Reusable;
    assert HeaderOk(s.headers[h], s.slots);
  }

  lemma KeepLoadTail<T>(s: State<T>, t: nat)
    requires Inv(s) && JobInRange(s, t) && s.jobs[t].JTail?
    ensures Inv(LoadTail(s, t))
  {
    assert JobOk(t, s.c.pcs[t], s.jobs[t], s.headers, s.slots, s.uses, s.enq);
    TailIsLast(s, s.jobs[t].h, s.c.pcs[t].i / BLOCK_SIZE);
    KeepLookup(s, LoadTail(s, t), t);
  }

  lemma KeepLoadKey<T>(s: State<T>, t: nat)
    requires Inv(s) && JobInRange(s, t) && s.jobs[t].JKey?
    ensures Inv(LoadKey(s, t))
  {
    assert JobOk(t, s.c.pcs[t], s.jobs[t], s.headers, s.slots, s.uses, s.enq);
    LookupEntry(s, t);
    KeepLookup(s, LoadKey(s, t), t);
  }

  lemma KeepLoadValue<T>(s: State<T>, t: nat)
    requires Inv(s) && JobInRange(s, t) && s.jobs[t].JValue?
    ensures Inv(LoadValue(s, t))
  {
    assert JobOk(t, s.c.pcs[t], s.jobs[t], s.headers, s.slots, s.uses, s.enq);
    LiveInIndex(s, s.c.pcs[t].i / BLOCK_SIZE);
    KeepLookup(s, LoadValue(s, t), t);
  }

  lemma KeepReturn<T>(s: State<T>, t: nat)
    requires Inv(s) && JobInRange(s, t) && s.jobs[t].JDone?
    ensures Inv(Return(s, t))
  {
    C.KeepFinish(s.c, t);
    hide C.Inv;
    assert Claimed(Return(s, t)) by { hide IndexOk, Uses, Blocks, Jobs, ProdOk; KeepClaimed(s, Return(s, t), t, -1); }
    hide Inv, Claimed;
    KeepLocal(s, Return(s, t), t);
  }

  // ---- dequeuers: steps on their block ------------------------------------------------------------

  /** What a dequeuer with index i in block j knows of it. */
  lemma BlockFacts<T>(s: State<T>, t: nat)
    requires Inv(s) && t < |s.jobs| && s.c.pcs[t].Have?
    ensures JobOk(t, s.c.pcs[t], s.jobs[t], s.headers, s.slots, s.uses, s.enq)
    ensures s.c.pcs[t].i < s.c.head && C.Threads(s.c)
    ensures var j := s.c.pcs[t].i / BLOCK_SIZE;
      && UseOk(s.uses[j], j, s.done, s.mem, s.owner, s.enq, s.c.head) && Placed(s.uses[j].stage, j, s.c.pcs, s.jobs)
      && BlockOk(s.owner[s.uses[j].block], s.uses[j].block, s.mem[s.uses[j].block], s.uses, s.prod)
  {
    assert C.ThreadOk(s.c.pcs[t], s.c);
  }

  /** The index and the enqueuer do not notice a block's record change when its value and its being gone do not. */
  lemma KeepIndex<T>(s: State<T>, s': State<T>, x: nat)
    requires Sized(s) && Sized(s') && IndexOk(s) && x < |s.uses| == |s'.uses| && SameUses(s, s', x)
    requires s'.keys == s.keys && s'.vals == s.vals && s'.headers == s.headers && s'.slots == s.slots
    requires ValueOf(s'.uses[x]) == ValueOf(s.uses[x]) && Dead(s'.uses[x]) == Dead(s.uses[x])
    ensures IndexOk(s')
  {
    hide HeadersOk, Keyed;
  }

  /** Nor does the enqueuer notice what dequeuers do to blocks and entries of blocks in use. */
  lemma KeepProd<T>(s: State<T>, s': State<T>, x: nat)
    requires Sized(s) && Sized(s') && ProdOk(s) && |s'.uses| == |s.uses| && SameUses(s, s', x)
    requires x < |s.uses| ==> (Dead(s.uses[x]) ==> Dead(s'.uses[x]))
    requires s'.prod == s.prod && s'.keys == s.keys && s'.headers == s.headers && s'.slots == s.slots && s'.enq == s.enq
    requires s'.c.tail == s.c.tail && |s'.vals| == |s.vals|
    requires forall e :: 0 <= e < |s.vals| ==> s'.vals[e] == s.vals[e] || s'.vals[e] == NULL
    requires s.prod.PReset? || s.prod.PVal? ==> s.prod.b < |s.owner| ==>
      s.prod.b < |s'.owner| && s'.owner[s.prod.b] == s.owner[s.prod.b] && s'.done[s.prod.b] == s.done[s.prod.b]
    ensures ProdOk(s')
  {
  }

  /** A dequeuer's step on its own block b, number j, as seen by all the others. */
  ghost predicate BlockStep<T>(s: State<T>, s': State<T>, t: nat, j: nat, k: nat, b: nat)
    requires Sized(s) && Sized(s')
  {
    && t < |s.jobs| && s.c.pcs[t].Have? && s.c.pcs[t].i / BLOCK_SIZE == j < |s.uses| && s.c.pcs[t].i % BLOCK_SIZE == k
    && s' == s.(done := s'.done, mem := s'.mem, owner := s'.owner, vals := s'.vals, uses := s'.uses, jobs := s'.jobs)
    && SameThreads(s, s', t) && SameBlocks(s, s', b) && SameUses(s, s', j)
    && |s'.uses| == |s.uses| && |s'.owner| == |s.owner| && s.uses[j].block == b < |s.owner| && s.owner[b] == UsedBy(j)
    && (forall e :: 0 <= e < |s.vals| ==> s'.vals[e] == s.vals[e] || s'.vals[e] == NULL)
  }

  lemma KeepBlockStep<T>(s: State<T>, s': State<T>, t: nat, j: nat, k: nat, b: nat)
    requires Inv(s) && Sized(s') && C.Threads(s.c) && BlockStep(s, s', t, j, k, b) && IndexOk(s')
    requires UseStep(s.uses[j], s'.uses[j], t, k) && (Dead(s.uses[j]) ==> Dead(s'.uses[j]))
    requires UseOk(s'.uses[j], j, s'.done, s'.mem, s'.owner, s'.enq, s'.c.head)
        && Placed(s'.uses[j].stage, j, s'.c.pcs, s'.jobs)
    requires BlockOk(s'.owner[b], b, s'.mem[b], s'.uses, s'.prod)
    requires JobOk(t, s'.c.pcs[t], s'.jobs[t], s'.headers, s'.slots, s'.uses, s'.enq)
    requires Ending(s, t) || ClaimOk(s.c.pcs[t].i, t, s'.c.pcs, s'.jobs, s'.uses)
    ensures Inv(s')
  {
    assert s.uses[j].fin <= s'.uses[j].fin;
    hide C.Inv, C.Threads, IndexOk, UseOk, UseStep, JobOk, Placed;
    assert Claimed(s') by { hide Jobs, Uses, Blocks, ProdOk; KeepClaimed(s, s', t, j); }
    hide Claimed;
    assert Blocks(s') by { hide Jobs, Uses; KeepBlocks(s, s', j, b); }
    assert ProdOk(s') by { hide Jobs, Uses; KeepProd(s, s', j); }
    hide Blocks, BlockOk, ProdOk;
    assert Uses(s') by { hide Jobs; KeepUses(s, s', t, j, b); }
    assert Jobs(s') by { KeepJobs(s, s', t, j, k); }
  }

  lemma KeepMoveOut<T>(s: State<T>, t: nat)
    requires Inv(s) && JobInRange(s, t) && s.jobs[t].JMove?
    ensures Inv(MoveOut(s, t)) && MoveOut(s, t).jobs[t].v == s.enq[s.c.pcs[t].i]
  {
    hide C.Inv, C.Threads, IndexOk, Jobs, Uses, Blocks, Claimed, ProdOk;
    var s' := MoveOut(s, t);
    var j, k, b := s.c.pcs[t].i / BLOCK_SIZE, s.c.pcs[t].i % BLOCK_SIZE, s.jobs[t].b;
    BlockFacts(s, t);
    KeepIndex(s, s', j);
    KeepBlockStep(s, s', t, j, k, b);
  }

  lemma SetEmptyUse<T>(s: State<T>, t: nat)
    requires Inv(s) && JobInRange(s, t) && s.jobs[t].JCount?
    ensures var s', j, k, b := SetEmpty(s, t), s.c.pcs[t].i / BLOCK_SIZE, s.c.pcs[t].i % BLOCK_SIZE, s.jobs[t].b;
      && s.uses[j].block == b < |s.owner| && s.owner[b] == UsedBy(j) && s.done[b] < BLOCK_SIZE
      && UseStep(s.uses[j], s'.uses[j], t, k) && s.uses[j].stage.Active?
      && UseOk(s'.uses[j], j, s'.done, s'.mem, s'.owner, s'.enq, s'.c.head)
      && (s'.uses[j].stage.Active? || s'.uses[j].stage == Drained(t))
      && Placed(s'.uses[j].stage, j, s'.c.pcs, s'.jobs)
      && JobOk(t, s'.c.pcs[t], s'.jobs[t], s'.headers, s'.slots, s'.uses, s'.enq)
      && ClaimOk(s.c.pcs[t].i, t, s'.c.pcs, s'.jobs, s'.uses)
  {
    hide Inv, C.Threads;
    var s' := SetEmpty(s, t);
    var j, k, b := s.c.pcs[t].i / BLOCK_SIZE, s.c.pcs[t].i % BLOCK_SIZE, s.jobs[t].b;
    BlockFacts(s, t);
    var o, w := s.uses[j], s'.uses[j];
    assert |w.fin| == |o.fin| + 1 == s'.done[b];
    C.SetBelow(w.fin, BLOCK_SIZE);
    forall i: nat | i < BLOCK_SIZE && i !in w.fin ensures w.stage.Active? {
      if |w.fin| == BLOCK_SIZE { AllSlots(w.fin, BLOCK_SIZE, i); }
    }
  }

  lemma KeepSetEmpty<T>(s: State<T>, t: nat)
    requires Inv(s) && JobInRange(s, t) && s.jobs[t].JCount?
    ensures Inv(SetEmpty(s, t)) && s.jobs[t].b < |s.done| && s.done[s.jobs[t].b] < BLOCK_SIZE
  {
    var s' := SetEmpty(s, t);
    var j, k, b := s.c.pcs[t].i / BLOCK_SIZE, s.c.pcs[t].i % BLOCK_SIZE, s.jobs[t].b;
    SetEmptyUse(s, t);
    assert C.Threads(s.c);
    hide C.Inv, C.Threads, UseStep, UseOk, JobOk, Placed, Jobs, Uses, Blocks, Claimed, ClaimOk, ProdOk, HeadersOk,
        Keyed, Valued;
    assert IndexOk(s') by { KeepIndex(s, s', j); }
    hide Inv, IndexOk;
    KeepBlockStep(s, s', t, j, k, b);
  }

  lemma ClearIndex<T>(s: State<T>, s': State<T>, j: nat)
    requires IndexOk(s) && Sized(s') && j < |s.uses| == |s'.uses| && !Dead(s.uses[j]) && Dead(s'.uses[j])
        && SameUses(s, s', j)
    requires s'.vals == s.vals[s.slots[j] := NULL] && s'.keys == s.keys && s'.headers == s.headers
        && s'.slots == s.slots
    ensures IndexOk(s')
  {
    hide HeadersOk;
    LiveInIndex(s, j);
  }

  lemma KeepClearEntry<T>(s: State<T>, t: nat)
    requires Inv(s) && JobInRange(s, t) && s.jobs[t].JClear?
    ensures Inv(ClearEntry(s, t))
  {
    hide C.Inv, C.Threads, IndexOk, Jobs, Uses, Blocks, Claimed, ProdOk;
    var s' := ClearEntry(s, t);
    var j, k, b := s.c.pcs[t].i / BLOCK_SIZE, s.c.pcs[t].i % BLOCK_SIZE, s.jobs[t].b;
    BlockFacts(s, t);
    ClearIndex(s, s', j);
    KeepBlockStep(s, s', t, j, k, b);
  }

  lemma DrainedRaw<T>(u: Use, j: nat, cells: seq<Cell<T>>, enq: seq<T>)
    requires SlotsOk(u) && !u.stage.Active? && CellsOk(cells, u, j, enq)
    ensures AllRaw(cells) && |u.fin| == BLOCK_SIZE
  {
    C.SetBelow(u.fin, BLOCK_SIZE);
    forall i: nat | i < BLOCK_SIZE ensures i in u.taken {
      AllSlots(u.fin, BLOCK_SIZE, i);
    }
  }

  lemma KeepFreeBlock<T>(s: State<T>, t: nat)
    requires Inv(s) && JobInRange(s, t) && s.jobs[t].JFree?
    ensures Inv(FreeBlock(s, t))
  {
    hide C.Inv, C.Threads, IndexOk, Jobs, Uses, Blocks, Claimed, ProdOk;
    var s' := FreeBlock(s, t);
    var j, k, b := s.c.pcs[t].i / BLOCK_SIZE, s.c.pcs[t].i % BLOCK_SIZE, s.jobs[t].b;
    BlockFacts(s, t);
    DrainedRaw(s.uses[j], j, s.mem[b], s.enq);
    hide AllRaw;
    KeepIndex(s, s', j);
    KeepBlockStep(s, s', t, j, k, b);
  }
}
