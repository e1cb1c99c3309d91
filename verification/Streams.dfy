/** The bytes that travel through the in-flight entries, connection by connection. */
module Streams {
  import opened Sums
  import opened Uring
  import opened Accounts

  // ----- Sizes -----

  predicate SqeSized(e: Sqe) {
    e.op.Recv? || e.op.Send? ==> e.op.size <= MAX_MESSAGE_LEN
  }

  predicate ArmedSized(a: Armed) {
    && (a.Receiving? ==> a.size <= MAX_MESSAGE_LEN)
    && (a.Sending? ==> a.done <= a.size <= MAX_MESSAGE_LEN)
  }

  predicate CqeSized(c: Cqe) {
    c.data.kind.READ? ==> c.res <= MAX_MESSAGE_LEN
  }

  ghost predicate BuffersSized(n: nat, bufs: seq<Bytes>) {
    |bufs| == n && forall b :: 0 <= b < n ==> |bufs[b]| == MAX_MESSAGE_LEN
  }

  ghost predicate Sized(n: nat, sq: seq<Sqe>, k: Kernel) {
    && BuffersSized(n, k.bufs)
    && (forall e :: e in sq ==> SqeSized(e))
    && (forall a :: a in k.armed ==> ArmedSized(a))
    && (forall c :: c in k.cq ==> CqeSized(c))
  }

  // ----- Streams -----

  /** The bytes of its connection that an in-flight entry still has to deliver. */
  function SqeChunk(k: Kernel, e: Sqe): Bytes {
    if e.op.Send? then Slice(k, e.op.bid, 0, e.op.size) else []
  }

  function ArmedChunk(k: Kernel, a: Armed): Bytes {
    if a.Sending? then Slice(k, a.bid, a.done, a.size) else []
  }

  function CqeChunk(k: Kernel, c: Cqe): Bytes {
    if c.data.kind.READ? && c.res > 0 then Slice(k, c.SelectedBuffer(), 0, c.res) else []
  }

  /** What was received on `fd` is what its sends have dealt with, piece by piece, and then `chunk`. */
  predicate Settled(k: Kernel, fd: nat, chunk: Bytes) { k.Due(fd) == Whole(k.Trail(fd)) + chunk }

  predicate SqeSettled(k: Kernel, e: Sqe) {
    e.op.Recv? || e.op.Send? ==> Settled(k, e.op.fd, SqeChunk(k, e))
  }

  predicate ArmedSettled(k: Kernel, a: Armed) {
    !a.Accepting? ==> Settled(k, a.fd, ArmedChunk(k, a))
  }

  predicate CqeSettled(k: Kernel, c: Cqe) {
    c.data.kind.READ? || c.data.kind.WRITE? ==> Settled(k, c.data.fd, CqeChunk(k, c))
  }

  ghost predicate StreamsSettled(sq: seq<Sqe>, k: Kernel, live: set<nat>) {
    && (forall e :: e in sq ==> SqeSettled(k, e))
    && (forall a :: a in k.armed ==> ArmedSettled(k, a))
    && (forall c :: c in k.cq ==> CqeSettled(k, c))
    && (forall fd :: fd !in live ==> Settled(k, fd, []))
  }

  // ----- Submission -----

  lemma IssueKeepsSizes(n: nat, sq: seq<Sqe>, k: Kernel)
    requires sq != [] && Sized(n, sq, k) && Tagged(sq, k)
    ensures Sized(n, sq[1..], Issue(k, sq[0]))
  {
    assert sq[0] in sq;
  }

  ghost predicate SameStreams(k: Kernel, k': Kernel) {
    k'.bufs == k.bufs && k'.due == k.due && k'.trail == k.trail
  }

  lemma StreamsFrame(k: Kernel, k': Kernel)
    requires SameStreams(k, k')
    ensures forall e {:trigger SqeSettled(k', e)} :: SqeSettled(k', e) == SqeSettled(k, e)
    ensures forall a {:trigger ArmedSettled(k', a)} :: ArmedSettled(k', a) == ArmedSettled(k, a)
    ensures forall c {:trigger CqeSettled(k', c)} :: CqeSettled(k', c) == CqeSettled(k, c)
    ensures forall fd, chunk {:trigger Settled(k', fd, chunk)} :: Settled(k', fd, chunk) == Settled(k, fd, chunk)
  {
    forall e: Sqe ensures SqeSettled(k', e) == SqeSettled(k, e) { assert SqeChunk(k', e) == SqeChunk(k, e); }
    forall a: Armed ensures ArmedSettled(k', a) == ArmedSettled(k, a) { assert ArmedChunk(k', a) == ArmedChunk(k, a); }
    forall c: Cqe ensures CqeSettled(k', c) == CqeSettled(k, c) { assert CqeChunk(k', c) == CqeChunk(k, c); }
  }

  lemma ArmKeepsChunk(k: Kernel, e: Sqe)
    requires !e.op.Provide? && SqeSettled(k, e)
    ensures ArmedSettled(k, Arm(e))
  {
  }

  lemma IssueKeepsStreams(sq: seq<Sqe>, k: Kernel, live: set<nat>)
    requires sq != [] && StreamsSettled(sq, k, live) && Tagged(sq, k)
    ensures StreamsSettled(sq[1..], Issue(k, sq[0]), live)
  {
    assert sq[0] in sq;
    StreamsFrame(k, Issue(k, sq[0]));
    if !sq[0].op.Provide? { ArmKeepsChunk(k, sq[0]); }
  }

  // ----- Kernel steps -----

  lemma StepKeepsSizes(n: nat, sq: seq<Sqe>, k: Kernel, t: KStep)
    requires Enabled(k, t) && Sized(n, sq, k) && Tagged(sq, k)
    ensures Sized(n, sq, Apply(k, t))
  {
    assert k.armed[t.i] in k.armed;
  }

  /** No entry but armed operation `i` weighs anything under `w`. */
  ghost predicate Sole(sq: seq<Sqe>, k: Kernel, i: nat, w: Weight)
    requires i < |k.armed|
  {
    && (forall e :: e in sq ==> SqeWeight(w, e) == 0)
    && (forall a :: a in Without(k.armed, i) ==> ArmedWeight(w, a) == 0)
    && (forall c :: c in k.cq ==> CqeWeight(w, c) == 0)
  }

  lemma SoleHolder(sq: seq<Sqe>, k: Kernel, i: nat, w: Weight)
    requires i < |k.armed| && !w.Demand? && Total(sq, k, w) <= 1 && ArmedWeight(w, k.armed[i]) == 1
    ensures Sole(sq, k, i, w)
  {
    SumWithout(k.armed, i, OfArmed(w));
    SumsAtLeast(sq, k.(armed := Without(k.armed, i)), w);
  }

  /** Only the streams of `fd` and the content of buffer `bid` may differ. */
  ghost predicate ChangesOnly(k: Kernel, k': Kernel, fd: nat, bid: nat) {
    && (forall f :: f != fd ==> k'.Due(f) == k.Due(f) && k'.Trail(f) == k.Trail(f))
    && |k'.bufs| == |k.bufs|
    && (forall b :: 0 <= b < |k.bufs| && b != bid ==> k'.bufs[b] == k.bufs[b])
  }

  lemma FrameOthers(k: Kernel, k': Kernel, fd: nat, bid: nat)
    requires ChangesOnly(k, k', fd, bid)
    ensures forall e {:trigger SqeSettled(k', e)} ::
      SqeWeight(Connection(fd), e) == SqeWeight(Buffer(bid), e) == 0 && SqeSettled(k, e) ==> SqeSettled(k', e)
    ensures forall a {:trigger ArmedSettled(k', a)} ::
      ArmedWeight(Connection(fd), a) == ArmedWeight(Buffer(bid), a) == 0 && ArmedSettled(k, a) ==> ArmedSettled(k', a)
    ensures forall c {:trigger CqeSettled(k', c)} ::
      CqeWeight(Connection(fd), c) == CqeWeight(Buffer(bid), c) == 0 && CqeSettled(k, c) ==> CqeSettled(k', c)
  {
    SlicesStay(k, k', fd, bid);
    forall e: Sqe | SqeWeight(Connection(fd), e) == SqeWeight(Buffer(bid), e) == 0 && SqeSettled(k, e)
      ensures SqeSettled(k', e) {}
    forall a: Armed | ArmedWeight(Connection(fd), a) == ArmedWeight(Buffer(bid), a) == 0 && ArmedSettled(k, a)
      ensures ArmedSettled(k', a) {}
    forall c | CqeWeight(Connection(fd), c) == CqeWeight(Buffer(bid), c) == 0 && CqeSettled(k, c)
      ensures CqeSettled(k', c)
    {
      CqeStaysSettled(k, k', fd, bid, c);
    }
  }

  lemma SlicesStay(k: Kernel, k': Kernel, fd: nat, bid: nat)
    requires ChangesOnly(k, k', fd, bid)
    ensures forall b, from, to {:trigger Slice(k', b, from, to)} :: b != bid ==> Slice(k', b, from, to) == Slice(k, b, from, to)
  {
  }

  lemma CqeStaysSettled(k: Kernel, k': Kernel, fd: nat, bid: nat, c: Cqe)
    requires ChangesOnly(k, k', fd, bid)
    requires CqeWeight(Connection(fd), c) == CqeWeight(Buffer(bid), c) == 0 && CqeSettled(k, c)
    ensures CqeSettled(k', c)
  {
    SlicesStay(k, k', fd, bid);
    if c.data.kind.READ? && c.res > 0 { assert c.SelectedBuffer() != bid; }
  }

  lemma FrameSameBuffers(k: Kernel, k': Kernel, fd: nat)
    requires k'.bufs == k.bufs
    requires forall f :: f != fd ==> k'.Due(f) == k.Due(f) && k'.Trail(f) == k.Trail(f)
    ensures forall e {:trigger SqeSettled(k', e)} ::
      SqeWeight(Connection(fd), e) == 0 && SqeSettled(k, e) ==> SqeSettled(k', e)
    ensures forall a {:trigger ArmedSettled(k', a)} ::
      ArmedWeight(Connection(fd), a) == 0 && ArmedSettled(k, a) ==> ArmedSettled(k', a)
    ensures forall c {:trigger CqeSettled(k', c)} ::
      CqeWeight(Connection(fd), c) == 0 && CqeSettled(k, c) ==> CqeSettled(k', c)
  {
  }

  lemma ReceivedIsSettled(k: Kernel, t: KStep)
    requires Enabled(k, t) && t.RecvDone? && TaggedArmed(k.armed[t.i]) && ArmedSettled(k, k.armed[t.i])
    ensures CqeSettled(Apply(k, t), Completion(k, t))
  {
    var a, k' := k.armed[t.i], Apply(k, t);
    assert Slice(k', a.held.value, 0, |t.data|) == t.data;
    assert Settled(k, a.fd, []) && Settled(k', a.fd, t.data);
  }

  /** Bytes that leave a buffer move from the chunk to the trail. */
  lemma SentIsSettled(k: Kernel, t: KStep)
    requires Enabled(k, t) && t.SendSome? && TaggedArmed(k.armed[t.i]) && ArmedSettled(k, k.armed[t.i])
    requires k.armed[t.i].size <= |k.bufs[k.armed[t.i].bid]|
    ensures ArmedSettled(Apply(k, t), Rearmed(k, t))
  {
    var a, k' := k.armed[t.i], Apply(k, t);
    var buf := k.bufs[a.bid];
    var now, later := buf[a.done..a.done + t.n], buf[a.done + t.n..a.size];
    assert buf[a.done..a.size] == now + later;
    assert ArmedChunk(k, a) == now + later && ArmedChunk(k', Rearmed(k, t)) == later;
    TrailGrows(k.Trail(a.fd), Passed(now));
    MovedAcross(Whole(k.Trail(a.fd)), now, later);
  }

  lemma MovedAcross(gone: Bytes, now: Bytes, later: Bytes)
    ensures gone + (now + later) == (gone + now) + later
  {
  }

  /** A send that completes leaves what is left of its chunk unsent. */
  lemma DoneIsSettled(k: Kernel, t: KStep)
    requires Enabled(k, t) && t.SendDone? && TaggedArmed(k.armed[t.i]) && ArmedSettled(k, k.armed[t.i])
    ensures CqeSettled(Apply(k, t), Completion(k, t))
  {
    var a, k' := k.armed[t.i], Apply(k, t);
    TrailGrows(k.Trail(a.fd), Unsent(ArmedChunk(k, a)));
    assert Whole(k'.Trail(a.fd)) + [] == Whole(k'.Trail(a.fd));
  }

  /** The operation a step concerns stays settled. */
  lemma MovedIsSettled(n: nat, k: Kernel, t: KStep)
    requires Enabled(k, t) && TaggedArmed(k.armed[t.i]) && ArmedSized(k.armed[t.i]) && ArmedSettled(k, k.armed[t.i])
    requires BuffersSized(n, k.bufs) && (k.armed[t.i].Sending? ==> k.armed[t.i].bid < n)
    ensures StaysArmed(t) ==> ArmedSettled(Apply(k, t), Rearmed(k, t))
    ensures !StaysArmed(t) ==> CqeSettled(Apply(k, t), Completion(k, t))
  {
    match t
    case RecvDone(_, _) => ReceivedIsSettled(k, t);
    case SendSome(_, _) => SentIsSettled(k, t);
    case SendDone(_, _) => DoneIsSettled(k, t);
    case _ =>
  }

  /** A descriptor that is not open belongs to no connection, so no in-flight entry names it. */
  lemma NoEntryOf(n: nat, sq: seq<Sqe>, k: Kernel, live: set<nat>, dead: multiset<nat>, fd: nat)
    requires Accounted(n, sq, k, live, dead) && fd !in k.open
    ensures fd !in live
    ensures forall e :: e in sq ==> SqeWeight(Connection(fd), e) == 0
    ensures forall a :: a in k.armed ==> ArmedWeight(Connection(fd), a) == 0
    ensures forall c :: c in k.cq ==> CqeWeight(Connection(fd), c) == 0
  {
    assert Balanced(n, sq, k, live, dead, Fresh(fd)) && Balanced(n, sq, k, live, dead, Connection(fd));
    SumsAtLeast(sq, k, Fresh(fd));
    SumsAtLeast(sq, k, Connection(fd));
  }

  /** An armed receive or send is the only entry of its connection, and the only holder of its buffer. */
  lemma SoleOperation(n: nat, sq: seq<Sqe>, k: Kernel, live: set<nat>, dead: multiset<nat>, i: nat, bid: nat)
    requires i < |k.armed| && !k.armed[i].Accepting? && ArmedWeight(Buffer(bid), k.armed[i]) == 1
    requires Accounted(n, sq, k, live, dead)
    ensures Sole(sq, k, i, Connection(k.armed[i].fd)) && Sole(sq, k, i, Buffer(bid))
  {
    assert Balanced(n, sq, k, live, dead, Connection(k.armed[i].fd)) && Balanced(n, sq, k, live, dead, Buffer(bid));
    SoleHolder(sq, k, i, Connection(k.armed[i].fd));
    SoleHolder(sq, k, i, Buffer(bid));
  }

  predicate Quiet(t: KStep) { !t.AcceptDone? && !t.RecvDone? && !t.SendSome? && !t.SendDone? }

  ghost predicate OthersSettled(sq: seq<Sqe>, k: Kernel, i: nat, k': Kernel)
    requires i < |k.armed|
  {
    && (forall e :: e in sq ==> SqeSettled(k', e))
    && (forall a :: a in Without(k.armed, i) ==> ArmedSettled(k', a))
    && (forall c :: c in k.cq ==> CqeSettled(k', c))
  }

  lemma QuietKeepsOthers(sq: seq<Sqe>, k: Kernel, live: set<nat>, t: KStep)
    requires Enabled(k, t) && Quiet(t) && StreamsSettled(sq, k, live)
    ensures OthersSettled(sq, k, t.i, Apply(k, t))
  {
    StreamsFrame(k, Apply(k, t));
  }

  lemma AcceptKeepsOthers(n: nat, sq: seq<Sqe>, k: Kernel, live: set<nat>, dead: multiset<nat>, t: KStep)
    requires Enabled(k, t) && t.AcceptDone? && Accounted(n, sq, k, live, dead) && StreamsSettled(sq, k, live)
    ensures OthersSettled(sq, k, t.i, Apply(k, t))
  {
    NoEntryOf(n, sq, k, live, dead, t.fd);
    FrameSameBuffers(k, Apply(k, t), t.fd);
  }

  lemma TransferKeepsOthers(n: nat, sq: seq<Sqe>, k: Kernel, live: set<nat>, dead: multiset<nat>, t: KStep)
    requires Enabled(k, t) && !Quiet(t) && !t.AcceptDone? && Accounted(n, sq, k, live, dead) && StreamsSettled(sq, k, live)
    ensures OthersSettled(sq, k, t.i, Apply(k, t))
  {
    var a := k.armed[t.i];
    var bid := if a.Receiving? then a.held.value else a.bid;
    SoleOperation(n, sq, k, live, dead, t.i, bid);
    FrameOthers(k, Apply(k, t), a.fd, bid);
  }

  /** Every entry but the one a step concerns stays settled: none of them belongs to the same connection or
      holds the same buffer. */
  lemma OthersStaySettled(n: nat, sq: seq<Sqe>, k: Kernel, live: set<nat>, dead: multiset<nat>, t: KStep)
    requires Enabled(k, t) && Accounted(n, sq, k, live, dead) && StreamsSettled(sq, k, live)
    ensures OthersSettled(sq, k, t.i, Apply(k, t))
  {
    if Quiet(t) {
      QuietKeepsOthers(sq, k, live, t);
    } else if t.AcceptDone? {
      AcceptKeepsOthers(n, sq, k, live, dead, t);
    } else {
      TransferKeepsOthers(n, sq, k, live, dead, t);
    }
  }

  /** The connection of an armed receive or send is live. */
  lemma ArmedIsLive(n: nat, sq: seq<Sqe>, k: Kernel, live: set<nat>, dead: multiset<nat>, a: Armed)
    requires Accounted(n, sq, k, live, dead) && a in k.armed && !a.Accepting?
    ensures a.fd in live
    ensures a.Sending? ==> a.bid < n
  {
    assert Balanced(n, sq, k, live, dead, Connection(a.fd));
    SumsAtLeast(sq, k, Connection(a.fd));
    if a.Sending? {
      assert ArmedWeight(Buffer(a.bid), a) == 1;
      HeldIsNotFree(n, sq, k, live, dead, a.bid);
    }
  }

  lemma IdleStaySettled(k: Kernel, live: set<nat>, t: KStep)
    requires Enabled(k, t) && (k.armed[t.i].Accepting? || k.armed[t.i].fd in live)
    requires forall fd :: fd !in live ==> Settled(k, fd, [])
    ensures forall fd :: fd !in live ==> Settled(Apply(k, t), fd, [])
  {
    forall fd | fd !in live ensures Settled(Apply(k, t), fd, []) {
      assert Settled(k, fd, []);
    }
  }

  lemma StepKeepsStreams(n: nat, sq: seq<Sqe>, k: Kernel, live: set<nat>, dead: multiset<nat>, t: KStep)
    requires Enabled(k, t) && Accounted(n, sq, k, live, dead) && Sized(n, sq, k) && StreamsSettled(sq, k, live)
    ensures StreamsSettled(sq, Apply(k, t), live)
  {
    var a := k.armed[t.i];
    assert a in k.armed && TaggedArmed(a) && ArmedSized(a) && ArmedSettled(k, a);
    OthersStaySettled(n, sq, k, live, dead, t);
    if !a.Accepting? { ArmedIsLive(n, sq, k, live, dead, a); }
    MovedIsSettled(n, k, t);
    IdleStaySettled(k, live, t);
    OthersAndMoved(sq, k, live, t);
  }

  /** The entries after a step are the others and the one it concerns. */
  lemma OthersAndMoved(sq: seq<Sqe>, k: Kernel, live: set<nat>, t: KStep)
    requires Enabled(k, t) && OthersSettled(sq, k, t.i, Apply(k, t))
    requires if StaysArmed(t) then ArmedSettled(Apply(k, t), Rearmed(k, t)) else CqeSettled(Apply(k, t), Completion(k, t))
    requires forall fd :: fd !in live ==> Settled(Apply(k, t), fd, [])
    ensures StreamsSettled(sq, Apply(k, t), live)
  {
    if StaysArmed(t) { UpdatedMembers(k.armed, t.i, Rearmed(k, t)); }
  }
}
