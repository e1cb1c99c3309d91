/** What is conserved while operations travel from the submission queue through the kernel to the completion queue.
    Every law counts the in-flight entries under one `Weight`. */
module Accounts {
  import opened Options
  import opened Sums
  import opened Uring

  datatype Weight =
    | Buffer(bid: nat)       // the places that hold buffer `bid`
    | Connection(fd: nat)    // the receives and sends of connection `fd`
    | Fresh(fd: nat)         // accept completions that announce `fd`
    | Listener               // the accept operations
    | Demand                 // buffers that queued and waiting receives will take, less those on their way back
    | Busy                   // everything but PROVIDE_BUFFERS

  function Bit(b: bool): int { if b then 1 else 0 }

  function SqeWeight(w: Weight, e: Sqe): int {
    match w
    case Buffer(bid) => Bit((e.op.Send? || e.op.Provide?) && e.op.bid == bid)
    case Connection(fd) => Bit((e.op.Recv? || e.op.Send?) && e.op.fd == fd)
    case Fresh(_) => 0
    case Listener => Bit(e.op.Accept?)
    case Demand => Bit(e.op.Recv?) - Bit(e.op.Provide?)
    case Busy => Bit(!e.op.Provide?)
  }

  function ArmedWeight(w: Weight, a: Armed): int {
    match w
    case Buffer(bid) => Bit((a.Receiving? && a.held == Some(bid)) || (a.Sending? && a.bid == bid))
    case Connection(fd) => Bit(!a.Accepting? && a.fd == fd)
    case Fresh(_) => 0
    case Listener => Bit(a.Accepting?)
    case Demand => Bit(a.Receiving? && a.held.None?)
    case Busy => 1
  }

  function CqeWeight(w: Weight, c: Cqe): int {
    match w
    case Buffer(bid) =>
      Bit((c.data.kind.READ? && !c.OutOfBuffers() && c.SelectedBuffer() == bid) || (c.data.kind.WRITE? && c.data.bid == bid))
    case Connection(fd) => Bit((c.data.kind.READ? || c.data.kind.WRITE?) && c.data.fd == fd)
    case Fresh(fd) => Bit(c.data.kind.ACCEPT? && c.res == fd)
    case Listener => Bit(c.data.kind.ACCEPT?)
    case Demand => Bit(c.data.kind.READ? && c.OutOfBuffers())
    case Busy => Bit(!c.data.kind.PROV_BUF?)
  }

  function OfSqe(w: Weight): Sqe -> int { (e: Sqe) => SqeWeight(w, e) }

  function OfArmed(w: Weight): Armed -> int { (a: Armed) => ArmedWeight(w, a) }

  function OfCqe(w: Weight): Cqe -> int { (c: Cqe) => CqeWeight(w, c) }

  function Total(sq: seq<Sqe>, k: Kernel, w: Weight): int {
    Sum(sq, OfSqe(w)) + Sum(k.armed, OfArmed(w)) + Sum(k.cq, OfCqe(w))
  }

  /** The tags agree with the operations they travel with. */
  predicate TaggedSqe(e: Sqe) {
    match e.op
    case Accept(_) => e.data.kind.ACCEPT?
    case Recv(fd, _) => e.data.kind.READ? && e.data.fd == fd
    case Send(fd, bid, _) => e.data == ConnInfo(fd, WRITE, bid)
    case Provide(_) => e.data.kind.PROV_BUF?
  }

  predicate TaggedArmed(a: Armed) {
    match a
    case Accepting(data) => data.kind.ACCEPT?
    case Receiving(fd, _, _, data) => data.kind.READ? && data.fd == fd
    case Sending(fd, bid, _, _, data) => data == ConnInfo(fd, WRITE, bid)
  }

  ghost predicate Tagged(sq: seq<Sqe>, k: Kernel) {
    && (forall e :: e in sq ==> TaggedSqe(e))
    && (forall a :: a in k.armed ==> TaggedArmed(a))
  }

  /** The conservation law for `w`: `n` buffers were registered, `live` are the connections being served and
      `dead` the descriptors shut down but not closed. */
  ghost predicate Balanced(n: nat, sq: seq<Sqe>, k: Kernel, live: set<nat>, dead: multiset<nat>, w: Weight) {
    var total := Total(sq, k, w);
    match w
    case Buffer(bid) => total + Bit(bid in k.pool) == Bit(bid < n)
    case Connection(fd) => total == Bit(fd in live)
    case Fresh(fd) => total + Bit(fd in live) + dead[fd] == Bit(fd in k.open)
    case Listener => total == 1
    case Demand => total + n == |live| + |k.pool|
    case Busy => total == |live| + 1
  }

  ghost predicate Accounted(n: nat, sq: seq<Sqe>, k: Kernel, live: set<nat>, dead: multiset<nat>) {
    && Tagged(sq, k)
    && forall w :: Balanced(n, sq, k, live, dead, w)
  }

  lemma ArmKeepsWeight(e: Sqe, w: Weight)
    requires !e.op.Provide?
    ensures ArmedWeight(w, Arm(e)) == SqeWeight(w, e)
    ensures TaggedSqe(e) ==> TaggedArmed(Arm(e))
  {
  }

  lemma IssueTotal(sq: seq<Sqe>, k: Kernel, w: Weight)
    requires sq != [] && TaggedSqe(sq[0])
    ensures Total(sq[1..], Issue(k, sq[0]), w) ==
            Total(sq, k, w) - if w.Buffer? && sq[0].op == Provide(w.bid) then 1
                              else if w.Demand? && sq[0].op.Provide? then -1 else 0
  {
    assert Sum(sq, OfSqe(w)) == SqeWeight(w, sq[0]) + Sum(sq[1..], OfSqe(w));
    if sq[0].op.Provide? {
      SumPush(k.cq, Cqe(sq[0].data, 0, 0), OfCqe(w));
    } else {
      SumPush(k.armed, Arm(sq[0]), OfArmed(w));
      ArmKeepsWeight(sq[0], w);
    }
  }

  lemma IssueKeepsAccounts(n: nat, sq: seq<Sqe>, k: Kernel, live: set<nat>, dead: multiset<nat>)
    requires sq != [] && Accounted(n, sq, k, live, dead)
    ensures Accounted(n, sq[1..], Issue(k, sq[0]), live, dead)
  {
    var e, k' := sq[0], Issue(k, sq[0]);
    assert e in sq;
    if !e.op.Provide? { ArmKeepsWeight(e, Busy); }
    if e.op.Provide? {
      HeldIsNotFree(n, sq, k, live, dead, e.op.bid);
    }
    forall w ensures Balanced(n, sq[1..], k', live, dead, w) {
      assert Balanced(n, sq, k, live, dead, w);
      IssueTotal(sq, k, w);
    }
  }

  lemma SumsAtLeast(sq: seq<Sqe>, k: Kernel, w: Weight)
    requires !w.Demand?
    ensures forall e :: e in sq ==> 0 <= SqeWeight(w, e) <= Sum(sq, OfSqe(w))
    ensures forall a :: a in k.armed ==> 0 <= ArmedWeight(w, a) <= Sum(k.armed, OfArmed(w))
    ensures forall c :: c in k.cq ==> 0 <= CqeWeight(w, c) <= Sum(k.cq, OfCqe(w))
    ensures Sum(sq, OfSqe(w)) >= 0 && Sum(k.armed, OfArmed(w)) >= 0 && Sum(k.cq, OfCqe(w)) >= 0
  {
    SumAtLeast(sq, OfSqe(w));
    SumAtLeast(k.armed, OfArmed(w));
    SumAtLeast(k.cq, OfCqe(w));
    assert forall e :: e in sq ==> OfSqe(w)(e) == SqeWeight(w, e);
    assert forall a :: a in k.armed ==> OfArmed(w)(a) == ArmedWeight(w, a);
    assert forall c :: c in k.cq ==> OfCqe(w)(c) == CqeWeight(w, c);
  }

  /** A buffer that some in-flight entry holds is not in the kernel's pool. */
  lemma HeldIsNotFree(n: nat, sq: seq<Sqe>, k: Kernel, live: set<nat>, dead: multiset<nat>, bid: nat)
    requires Accounted(n, sq, k, live, dead)
    requires || (exists e :: e in sq && SqeWeight(Buffer(bid), e) == 1)
             || (exists a :: a in k.armed && ArmedWeight(Buffer(bid), a) == 1)
    ensures bid !in k.pool && bid < n && Total(sq, k, Buffer(bid)) == 1
  {
    SumsAtLeast(sq, k, Buffer(bid));
    assert Balanced(n, sq, k, live, dead, Buffer(bid));
  }

  /** How one kernel step changes a total. */
  function StepGain(k: Kernel, t: KStep, w: Weight): int
    requires Enabled(k, t)
  {
    match t
    case AcceptDone(_, fd) => Bit(w == Fresh(fd))
    case Select(_, bid) => Bit(w == Buffer(bid)) - Bit(w.Demand?)
    case Recycle(i) => Bit(w.Demand?) - Bit(w == Buffer(k.armed[i].held.value))
    case _ => 0
  }

  /** The entry a step leaves behind is tagged, and weighs what the armed operation did but for the gain. */
  lemma RearmedWeight(k: Kernel, t: KStep, w: Weight)
    requires Enabled(k, t) && StaysArmed(t)
    ensures ArmedWeight(w, Rearmed(k, t)) == ArmedWeight(w, k.armed[t.i]) + StepGain(k, t, w)
    ensures TaggedArmed(k.armed[t.i]) ==> TaggedArmed(Rearmed(k, t))
  {
  }

  lemma CompletionWeight(k: Kernel, t: KStep, w: Weight)
    requires Enabled(k, t) && !StaysArmed(t) && TaggedArmed(k.armed[t.i])
    ensures CqeWeight(w, Completion(k, t)) == ArmedWeight(w, k.armed[t.i]) + StepGain(k, t, w)
  {
  }

  lemma StepTotal(sq: seq<Sqe>, k: Kernel, t: KStep, w: Weight)
    requires Enabled(k, t) && TaggedArmed(k.armed[t.i])
    ensures Total(sq, Apply(k, t), w) == Total(sq, k, w) + StepGain(k, t, w)
  {
    if StaysArmed(t) {
      RearmedWeight(k, t, w);
      SumUpdate(k.armed, t.i, Rearmed(k, t), OfArmed(w));
    } else {
      CompletionWeight(k, t, w);
      SumWithout(k.armed, t.i, OfArmed(w));
      SumPush(k.cq, Completion(k, t), OfCqe(w));
    }
  }

  lemma StepKeepsTags(sq: seq<Sqe>, k: Kernel, t: KStep)
    requires Enabled(k, t) && Tagged(sq, k)
    ensures Tagged(sq, Apply(k, t))
  {
    assert k.armed[t.i] in k.armed;
    if StaysArmed(t) { RearmedWeight(k, t, Busy); }
  }

  lemma StepKeepsBalance(n: nat, sq: seq<Sqe>, k: Kernel, live: set<nat>, dead: multiset<nat>, t: KStep, w: Weight)
    requires Enabled(k, t) && TaggedArmed(k.armed[t.i]) && Balanced(n, sq, k, live, dead, w)
    requires t.Recycle? ==> k.armed[t.i].held.value !in k.pool
    ensures Balanced(n, sq, Apply(k, t), live, dead, w)
  {
    StepTotal(sq, k, t, w);
    if t.AcceptDone? || t.Select? || t.Recycle? {
    } else {
      assert Apply(k, t).pool == k.pool && Apply(k, t).open == k.open;
    }
  }

  lemma StepKeepsAccounts(n: nat, sq: seq<Sqe>, k: Kernel, live: set<nat>, dead: multiset<nat>, t: KStep)
    requires Enabled(k, t) && Accounted(n, sq, k, live, dead)
    ensures Accounted(n, sq, Apply(k, t), live, dead)
  {
    var a := k.armed[t.i];
    assert a in k.armed;
    StepKeepsTags(sq, k, t);
    if t.Recycle? {
      assert ArmedWeight(Buffer(a.held.value), a) == 1;
      HeldIsNotFree(n, sq, k, live, dead, a.held.value);
    }
    forall w ensures Balanced(n, sq, Apply(k, t), live, dead, w) {
      assert Balanced(n, sq, k, live, dead, w);
      StepKeepsBalance(n, sq, k, live, dead, t, w);
    }
  }

  // ----- Buffers given back -----

  ghost predicate ProvidesSucceed(k: Kernel) { forall c :: c in k.cq && c.data.kind.PROV_BUF? ==> c.res >= 0 }

  lemma IssueProvides(k: Kernel, e: Sqe)
    requires ProvidesSucceed(k)
    ensures ProvidesSucceed(Issue(k, e))
  {
  }

  lemma StepProvides(k: Kernel, t: KStep)
    requires Enabled(k, t) && TaggedArmed(k.armed[t.i]) && ProvidesSucceed(k)
    ensures ProvidesSucceed(Apply(k, t))
  {
  }
}
