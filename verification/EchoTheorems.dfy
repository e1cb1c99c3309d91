/** What the echo server promises over every run: buffers are conserved, every connection has one operation
    outstanding, bytes are echoed in order, receives never starve, and the submission queue never overfills. */
module EchoTheorems {
  import opened Sums
  import opened Uring
  import opened EchoLoop
  import opened Accounts
  import opened Streams
  import opened EchoProtocol

  // ----- Conservation -----

  /** Every registered buffer is in exactly one place: the pool, a receive, an unhandled receive completion,
      a send (queued, armed or completed and unhandled), or a queued PROVIDE_BUFFERS. */
  lemma BufferConservation(cfg: Config, n: nat, states: seq<System>, steps: seq<Step>, i: nat, bid: nat)
    requires Run(cfg, n, states, steps) && i < |states| && !states[i].v.Stopped()
    ensures var s := states[i];
            Total(s.v.sq, s.k, Buffer(bid)) + Bit(bid in s.k.pool) == Bit(bid < n)
  {
    RunInv(cfg, n, states, steps, i);
    var s := states[i];
    assert Balanced(n, s.v.sq, s.k, s.v.live, multiset(s.v.shut), Buffer(bid));
  }

  /** One accept is outstanding; a live connection has one outstanding operation and any other descriptor none;
      a descriptor is adopted at most once and shut down at most once. */
  lemma OneOutstandingOperation(cfg: Config, n: nat, states: seq<System>, steps: seq<Step>, i: nat, fd: nat)
    requires Run(cfg, n, states, steps) && i < |states| && !states[i].v.Stopped()
    ensures var s := states[i];
            && Total(s.v.sq, s.k, Listener) == 1
            && Total(s.v.sq, s.k, Connection(fd)) == Bit(fd in s.v.live)
            && Bit(fd in s.v.live) + multiset(s.v.shut)[fd] <= Bit(fd in s.k.open)
  {
    RunInv(cfg, n, states, steps, i);
    var s := states[i];
    assert Balanced(n, s.v.sq, s.k, s.v.live, multiset(s.v.shut), Listener);
    assert Balanced(n, s.v.sq, s.k, s.v.live, multiset(s.v.shut), Connection(fd));
    assert Balanced(n, s.v.sq, s.k, s.v.live, multiset(s.v.shut), Fresh(fd));
    SumsAtLeast(s.v.sq, s.k, Fresh(fd));
  }

  // ----- Echo integrity -----

  function SqeBytes(k: Kernel, fd: nat): Sqe -> Bytes {
    (e: Sqe) => if SqeWeight(Connection(fd), e) == 1 then SqeChunk(k, e) else []
  }

  function ArmedBytes(k: Kernel, fd: nat): Armed -> Bytes {
    (a: Armed) => if ArmedWeight(Connection(fd), a) == 1 then ArmedChunk(k, a) else []
  }

  function CqeBytes(k: Kernel, fd: nat): Cqe -> Bytes {
    (c: Cqe) => if CqeWeight(Connection(fd), c) == 1 then CqeChunk(k, c) else []
  }

  /** The bytes of connection `fd` that lie in buffers: all chunks of its in-flight entries. */
  function InFlight(sq: seq<Sqe>, k: Kernel, fd: nat): Bytes {
    Concat(sq, SqeBytes(k, fd)) + Concat(k.armed, ArmedBytes(k, fd)) + Concat(k.cq, CqeBytes(k, fd))
  }

  /** A region holds nothing of `fd`, or holds one entry of it whose chunk is all there is. */
  lemma RegionBytes(sq: seq<Sqe>, k: Kernel, fd: nat)
    requires Total(sq, k, Connection(fd)) <= 1
    ensures Sum(sq, OfSqe(Connection(fd))) == 0 ==> Concat(sq, SqeBytes(k, fd)) == []
    ensures Sum(k.armed, OfArmed(Connection(fd))) == 0 ==> Concat(k.armed, ArmedBytes(k, fd)) == []
    ensures Sum(k.cq, OfCqe(Connection(fd))) == 0 ==> Concat(k.cq, CqeBytes(k, fd)) == []
    ensures Sum(sq, OfSqe(Connection(fd))) == 1 ==>
      exists e :: e in sq && SqeWeight(Connection(fd), e) == 1 && Concat(sq, SqeBytes(k, fd)) == SqeChunk(k, e)
    ensures Sum(k.armed, OfArmed(Connection(fd))) == 1 ==>
      exists a :: a in k.armed && ArmedWeight(Connection(fd), a) == 1 && Concat(k.armed, ArmedBytes(k, fd)) == ArmedChunk(k, a)
    ensures Sum(k.cq, OfCqe(Connection(fd))) == 1 ==>
      exists c :: c in k.cq && CqeWeight(Connection(fd), c) == 1 && Concat(k.cq, CqeBytes(k, fd)) == CqeChunk(k, c)
  {
    var w := Connection(fd);
    SumsAtLeast(sq, k, w);
    ConcatSole(sq, OfSqe(w), SqeBytes(k, fd));
    ConcatSole(k.armed, OfArmed(w), ArmedBytes(k, fd));
    ConcatSole(k.cq, OfCqe(w), CqeBytes(k, fd));
  }

  lemma OnlyPiece(x: Bytes, y: Bytes, z: Bytes)
    ensures y == z == [] ==> x + y + z == x
    ensures x == z == [] ==> x + y + z == y
    ensures x == y == [] ==> x + y + z == z
  {
  }

  lemma InFlightIsSettled(n: nat, sq: seq<Sqe>, k: Kernel, live: set<nat>, dead: multiset<nat>, fd: nat)
    requires Accounted(n, sq, k, live, dead) && StreamsSettled(sq, k, live)
    ensures Settled(k, fd, InFlight(sq, k, fd))
    ensures fd !in live ==> InFlight(sq, k, fd) == []
  {
    var w := Connection(fd);
    assert Balanced(n, sq, k, live, dead, w);
    SumsAtLeast(sq, k, w);
    RegionBytes(sq, k, fd);
    var x, y, z := Concat(sq, SqeBytes(k, fd)), Concat(k.armed, ArmedBytes(k, fd)), Concat(k.cq, CqeBytes(k, fd));
    OnlyPiece(x, y, z);
    if fd !in live {
      assert Settled(k, fd, []);
    } else if Sum(sq, OfSqe(w)) == 1 {
      var e :| e in sq && SqeWeight(w, e) == 1 && x == SqeChunk(k, e);
      assert SqeSettled(k, e);
    } else if Sum(k.armed, OfArmed(w)) == 1 {
      var a :| a in k.armed && ArmedWeight(w, a) == 1 && y == ArmedChunk(k, a);
      assert ArmedSettled(k, a);
    } else {
      var c :| c in k.cq && CqeWeight(w, c) == 1 && z == CqeChunk(k, c);
      assert CqeSettled(k, c);
    }
  }

  /** What a connection received is, in order, what its sends have dealt with and then the bytes now in flight. What was
      sent back is that stream without the tails its cut sends left out, so nothing is missing exactly when no send was
      cut short. */
  lemma EchoIntegrity(cfg: Config, n: nat, states: seq<System>, steps: seq<Step>, i: nat, fd: nat)
    requires Run(cfg, n, states, steps) && i < |states| && !states[i].v.Stopped()
    ensures var k, pending := states[i].k, InFlight(states[i].v.sq, states[i].k, fd);
            && k.Due(fd) == Whole(k.Trail(fd)) + pending && k.Sent(fd) == Kept(k.Trail(fd))
            && (k.Due(fd) == k.Sent(fd) + pending <==> k.Lost(fd) == 0)
            && |k.Due(fd)| == |k.Sent(fd)| + |pending| + k.Lost(fd)
            && (fd !in states[i].v.live ==> pending == [])
  {
    RunInv(cfg, n, states, steps, i);
    var s := states[i];
    InFlightIsSettled(n, s.v.sq, s.k, s.v.live, multiset(s.v.shut), fd);
    KeptIsWhole(s.k.Trail(fd));
  }

  // ----- Starvation -----

  /** Receives that wait without a buffer, or were refused one. */
  function Waiting(k: Kernel): int { Sum(k.armed, OfArmed(Demand)) + Sum(k.cq, OfCqe(Demand)) }

  /** Once everything queued is consumed, more connections than buffers are live exactly when more receives wait
      than there are free buffers. */
  lemma WaitingIffOvercommitted(cfg: Config, n: nat, states: seq<System>, steps: seq<Step>, i: nat)
    requires Run(cfg, n, states, steps) && i < |states| && !states[i].v.Stopped()
    requires states[i].v.sq == []
    ensures |states[i].v.live| > n <==> Waiting(states[i].k) > |states[i].k.pool|
  {
    RunInv(cfg, n, states, steps, i);
    var s := states[i];
    assert Balanced(n, s.v.sq, s.k, s.v.live, multiset(s.v.shut), Demand);
  }

  /** Whatever prefix of the queue the kernel has consumed, no more receives wait than there are free buffers. */
  ghost predicate Supplied(sq: seq<Sqe>, k: Kernel) {
    forall j :: 0 <= j <= |sq| ==> Total(sq[..j], k, Demand) <= |k.pool|
  }

  lemma SubmitKeepsSupply(n: nat, sq: seq<Sqe>, k: Kernel, live: set<nat>, dead: multiset<nat>)
    requires sq != [] && Accounted(n, sq, k, live, dead) && Supplied(sq, k)
    ensures Supplied(sq[1..], Issue(k, sq[0]))
  {
    assert sq[0] in sq;
    if sq[0].op.Provide? {
      assert SqeWeight(Buffer(sq[0].op.bid), sq[0]) == 1;
      HeldIsNotFree(n, sq, k, live, dead, sq[0].op.bid);
    }
    forall j | 0 <= j <= |sq[1..]|
      ensures Total(sq[1..][..j], Issue(k, sq[0]), Demand) <= |Issue(k, sq[0]).pool|
    {
      var prefix := sq[..j + 1];
      assert sq[1..][..j] == prefix[1..] && prefix[0] == sq[0];
      IssueTotal(prefix, k, Demand);
      assert Total(prefix, k, Demand) <= |k.pool|;
    }
  }

  lemma StepFeeds(n: nat, sq: seq<Sqe>, k: Kernel, live: set<nat>, dead: multiset<nat>, t: KStep)
    requires Enabled(k, t) && Accounted(n, sq, k, live, dead)
    ensures |Apply(k, t).pool| - |k.pool| == StepGain(k, t, Demand)
  {
    var a := k.armed[t.i];
    if t.Recycle? {
      assert a in k.armed && ArmedWeight(Buffer(a.held.value), a) == 1;
      HeldIsNotFree(n, sq, k, live, dead, a.held.value);
    } else if !t.Select? {
      assert Apply(k, t).pool == k.pool;
    }
  }

  lemma InternalKeepsSupply(n: nat, sq: seq<Sqe>, k: Kernel, live: set<nat>, dead: multiset<nat>, t: KStep)
    requires Enabled(k, t) && Accounted(n, sq, k, live, dead) && Supplied(sq, k)
    ensures Supplied(sq, Apply(k, t))
  {
    assert k.armed[t.i] in k.armed;
    StepFeeds(n, sq, k, live, dead, t);
    forall j | 0 <= j <= |sq| ensures Total(sq[..j], Apply(k, t), Demand) <= |Apply(k, t).pool| {
      StepTotal(sq[..j], k, t, Demand);
      assert Total(sq[..j], k, Demand) <= |k.pool|;
    }
  }

  /** A reply that demands no more in any of its prefixes than as a whole: buffers come before the receives that will
      take them. */
  ghost predicate SuppliesFirst(r: seq<Sqe>) {
    forall j :: 0 < j <= |r| ==> Sum(r[..j], OfSqe(Demand)) <= Sum(r, OfSqe(Demand))
  }

  /** Appending such a reply keeps supply, when afterwards at most `n` connections are live. */
  lemma ReplyKeepsSupply(n: nat, sq: seq<Sqe>, r: seq<Sqe>, k: Kernel, k': Kernel, live: set<nat>, dead: multiset<nat>)
    requires Supplied(sq, k) && SuppliesFirst(r)
    requires k.cq != [] && CqeWeight(Demand, k.cq[0]) == 0
    requires k'.armed == k.armed && k'.cq == k.cq[1..] && k'.pool == k.pool
    requires Balanced(n, sq + r, k', live, dead, Demand) && |live| <= n
    ensures Supplied(sq + r, k')
  {
    assert Sum(k.cq, OfCqe(Demand)) == Sum(k.cq[1..], OfCqe(Demand));
    forall j | 0 <= j <= |sq + r| ensures Total((sq + r)[..j], k', Demand) <= |k'.pool| {
      if j <= |sq| {
        assert (sq + r)[..j] == sq[..j];
        assert Total(sq[..j], k, Demand) <= |k.pool|;
      } else {
        assert (sq + r)[..j] == sq + r[..j - |sq|];
        SumAppend(sq, r[..j - |sq|], OfSqe(Demand));
        SumAppend(sq, r, OfSqe(Demand));
      }
    }
  }

  /** The replies of the event loop: a buffer is given back before the next receive is queued. */
  lemma LoopSuppliesFirst(cfg: Config, c: Cqe)
    ensures SuppliesFirst(Reply(cfg, c))
  {
    var r := Reply(cfg, c);
    if r != [] {
      SumFew(r[0], r[|r| - 1], OfSqe(Demand));
      assert r == [r[0]] || r == [r[0], r[1]];
      forall j | 0 < j <= |r| ensures r[..j] == [r[0]] || r[..j] == r {}
    }
  }

  lemma HandleKeepsSupply(cfg: Config, n: nat, sq: seq<Sqe>, k: Kernel, live: set<nat>, shut: seq<nat>)
    requires k.cq != [] && !k.cq[0].OutOfBuffers()
    requires Accounted(n, sq, k, live, multiset(shut)) && Supplied(sq, k)
    requires |LiveAfter(live, k.cq[0])| <= n
    ensures Supplied(sq + Reply(cfg, k.cq[0]), Reap(k))
  {
    var c := k.cq[0];
    LoopSuppliesFirst(cfg, c);
    HandleKeepsBalance(cfg, n, sq, k, live, shut, Demand);
    ReplyKeepsSupply(n, sq, Reply(cfg, c), k, Reap(k), LiveAfter(live, c), multiset(ShutAfter(shut, c)));
  }

  ghost predicate NoRefusal(k: Kernel) {
    forall c :: c in k.cq ==> !(c.data.kind.READ? && c.OutOfBuffers())
  }

  /** With supply, no step of the kernel can refuse a receive for want of a buffer. */
  lemma SuppliedIsNotStarved(sq: seq<Sqe>, k: Kernel, i: nat)
    requires Supplied(sq, k)
    ensures !Enabled(k, RecvStarved(i))
  {
    assert sq[..0] == [] && Total(sq[..0], k, Demand) <= |k.pool|;
    SumAtLeast(k.armed, OfArmed(Demand));
    SumAtLeast(k.cq, OfCqe(Demand));
    if i < |k.armed| { assert OfArmed(Demand)(k.armed[i]) == ArmedWeight(Demand, k.armed[i]); }
  }

  lemma InternalKeepsFed(n: nat, sq: seq<Sqe>, k: Kernel, live: set<nat>, dead: multiset<nat>, t: KStep)
    requires Enabled(k, t) && Accounted(n, sq, k, live, dead) && Supplied(sq, k) && NoRefusal(k)
    ensures Supplied(sq, Apply(k, t)) && NoRefusal(Apply(k, t))
  {
    InternalKeepsSupply(n, sq, k, live, dead, t);
    assert k.armed[t.i] in k.armed;
    if t.RecvStarved? { SuppliedIsNotStarved(sq, k, t.i); }
  }

  lemma HandleKeepsFed(cfg: Config, n: nat, s: System)
    requires Inv(n, s) && CanStep(s, HandleNext) && Supplied(s.v.sq, s.k) && NoRefusal(s.k)
    requires var s' := Next(cfg, s, HandleNext); !s'.v.Stopped() && |s'.v.live| <= n
    ensures var s' := Next(cfg, s, HandleNext); Supplied(s'.v.sq, s'.k) && NoRefusal(s'.k)
  {
    HandleEffect(cfg, s.v, s.k.cq[0]);
    HandleKeepsSupply(cfg, n, s.v.sq, s.k, s.v.live, s.v.shut);
  }

  lemma StepKeepsSupply(cfg: Config, n: nat, s: System, step: Step)
    requires Inv(n, s) && CanStep(s, step) && Supplied(s.v.sq, s.k) && NoRefusal(s.k)
    requires |Next(cfg, s, step).v.live| <= n
    ensures var s' := Next(cfg, s, step); s'.v.Stopped() || (Supplied(s'.v.sq, s'.k) && NoRefusal(s'.k))
  {
    match step
    case Submit =>
      assert s.v.sq[0] in s.v.sq;
      SubmitKeepsSupply(n, s.v.sq, s.k, s.v.live, multiset(s.v.shut));
    case Internal(t) => InternalKeepsFed(n, s.v.sq, s.k, s.v.live, multiset(s.v.shut), t);
    case HandleNext => if !Next(cfg, s, step).v.Stopped() { HandleKeepsFed(cfg, n, s); }
    case Wake =>
    case Sleep =>
  }

  lemma InitiallySupplied(cfg: Config, n: nat, s: System)
    requires Initial(cfg, n, s)
    ensures Supplied(s.v.sq, s.k) && NoRefusal(s.k)
  {
    forall j | 0 <= j <= |s.v.sq| ensures Total(s.v.sq[..j], s.k, Demand) <= |s.k.pool| {
      SumFew(AcceptSqe(cfg), AcceptSqe(cfg), OfSqe(Demand));
      assert s.v.sq == [AcceptSqe(cfg)];
      assert s.v.sq[..j] == [] || s.v.sq[..j] == s.v.sq;
    }
  }

  ghost predicate Fed(s: System) { s.v.Stopped() || (Supplied(s.v.sq, s.k) && NoRefusal(s.k)) }

  lemma StepKeepsFed(cfg: Config, n: nat, s: System, step: Step, s': System)
    requires Inv(n, s) && CanStep(s, step) && s' == Next(cfg, s, step) && Fed(s) && |s'.v.live| <= n
    ensures Fed(s')
  {
    StepKeepsSupply(cfg, n, s, step);
  }

  lemma FedIsNotStarved(s: System)
    requires Fed(s) && !s.v.Stopped()
    ensures forall j :: !Enabled(s.k, RecvStarved(j))
  {
    forall j: nat ensures !Enabled(s.k, RecvStarved(j)) {
      SuppliedIsNotStarved(s.v.sq, s.k, j);
    }
  }

  lemma RunKeepsFed(cfg: Config, n: nat, states: seq<System>, steps: seq<Step>, i: nat)
    requires Run(cfg, n, states, steps) && i < |states|
    requires forall j :: 0 <= j <= i ==> |states[j].v.live| <= n
    ensures Fed(states[i])
  {
    InitiallySupplied(cfg, n, states[0]);
    for j := 0 to i
      invariant Fed(states[j])
    {
      RunInv(cfg, n, states, steps, j);
      StepKeepsFed(cfg, n, states[j], steps[j], states[j + 1]);
    }
  }

  /** As long as at most `n` connections are live at once, no receive is ever refused a buffer, in whatever order
      and batches completions arrive. */
  lemma NoStarvation(cfg: Config, n: nat, states: seq<System>, steps: seq<Step>, i: nat)
    requires Run(cfg, n, states, steps) && i < |states| && !states[i].v.Stopped()
    requires forall j :: 0 <= j <= i ==> |states[j].v.live| <= n
    ensures Supplied(states[i].v.sq, states[i].k) && NoRefusal(states[i].k)
    ensures forall j :: !Enabled(states[i].k, RecvStarved(j))
  {
    RunKeepsFed(cfg, n, states, steps, i);
    FedIsNotStarved(states[i]);
  }

  // ----- One pass -----

  /** A pass never handles more completions than operations were unfinished when it began. */
  lemma PassTerminates(cfg: Config, n: nat, states: seq<System>, steps: seq<Step>, i: nat)
    requires Run(cfg, n, states, steps) && i < |states| && !states[i].v.Stopped() && states[i].phase.Handling?
    ensures var s := states[i];
            && s.phase.count + |s.k.armed| + |s.k.cq| == s.phase.pendingAtWake
            && |s.v.sq| <= 2 * s.phase.liveAtWake + 2
  {
    RunInv(cfg, n, states, steps, i);
    SumsAtLeast([], states[i].k, Busy);
  }

  // ----- The program in a run -----

  /** The completion a step hands to the server, if any. */
  function TakenBy(s: System, step: Step): seq<Cqe> {
    if step.HandleNext? && s.k.cq != [] then [s.k.cq[0]] else []
  }

  /** The completions the server has handled in the steps from state `i` to state `j`. */
  function Reaped(states: seq<System>, steps: seq<Step>, i: nat, j: nat): seq<Cqe>
    requires i <= j <= |steps| < |states|
  {
    if i == j then [] else Reaped(states, steps, i, j - 1) + TakenBy(states[j - 1], steps[j - 1])
  }

  lemma {:induction false} HandleOneMore(cfg: Config, v: Server, cs: seq<Cqe>, c: Cqe)
    requires !v.Stopped() && !HandleAll(cfg, v, cs).Stopped()
    ensures HandleAll(cfg, v, cs + [c]) == Handle(cfg, HandleAll(cfg, v, cs), c)
    decreases |cs|
  {
    if cs == [] {
      assert [] + [c] == [c] && [c][1..] == [];
      assert HandleAll(cfg, v, [c]) == HandleAll(cfg, Handle(cfg, v, c), []);
    } else {
      assert (cs + [c])[1..] == cs[1..] + [c];
      if Handle(cfg, v, cs[0]).Stopped() {
        assert false;
      } else {
        HandleOneMore(cfg, Handle(cfg, v, cs[0]), cs[1..], c);
      }
    }
  }

  lemma Requeued<T>(first: seq<T>, done: seq<T>, queue: seq<T>, more: seq<T>, queue': seq<T>)
    requires first <= done + queue && (more == [] || (queue != [] && more == [queue[0]])) && queue[|more|..] <= queue'
    ensures first <= (done + more) + queue'
  {
    assert queue == more + queue[|more|..];
    assert done + queue == (done + more) + queue[|more|..];
  }

  /** The server goes on from a completion it handles; the kernel only adds behind those not yet handled. */
  lemma PassStep(cfg: Config, s: System, step: Step, s': System)
    requires CanStep(s, step) && s' == Next(cfg, s, step) && (step.HandleNext? || step.Internal?)
    ensures s'.v == if step.HandleNext? then Handle(cfg, s.v, s.k.cq[0]) else s.v
    ensures s.k.cq[|TakenBy(s, step)|..] <= s'.k.cq
  {
  }

  /** From state `s` on the server has handled the completions `done`, in the order they were posted. */
  ghost predicate InPass(cfg: Config, s: System, done: seq<Cqe>, s': System) {
    s'.v == HandleAll(cfg, s.v, done) && s.k.cq <= done + s'.k.cq
  }

  lemma PassExtends(cfg: Config, s0: System, done: seq<Cqe>, s: System, step: Step, s': System)
    requires CanStep(s, step) && s' == Next(cfg, s, step) && (step.HandleNext? || step.Internal?)
    requires !s0.v.Stopped() && InPass(cfg, s0, done, s)
    ensures InPass(cfg, s0, done + TakenBy(s, step), s')
  {
    PassStep(cfg, s, step, s');
    Requeued(s0.k.cq, done, s.k.cq, TakenBy(s, step), s'.k.cq);
    if step.HandleNext? {
      HandleOneMore(cfg, s0.v, done, s.k.cq[0]);
    } else {
      assert done + [] == done;
    }
  }

  lemma PassGrows(cfg: Config, n: nat, states: seq<System>, steps: seq<Step>, i: nat, m: nat)
    requires Run(cfg, n, states, steps) && i <= m < |steps| && (steps[m].HandleNext? || steps[m].Internal?)
    requires InPass(cfg, states[i], Reaped(states, steps, i, m), states[m])
    ensures InPass(cfg, states[i], Reaped(states, steps, i, m + 1), states[m + 1])
  {
    assert CanStep(states[i], steps[i]) && CanStep(states[m], steps[m]);
    PassExtends(cfg, states[i], Reaped(states, steps, i, m), states[m], steps[m], states[m + 1]);
  }

  lemma PassBegins(cfg: Config, s: System)
    ensures InPass(cfg, s, [], s)
  {
    assert [] + s.k.cq == s.k.cq;
  }

  /** A pass in a run is the pass of the program: from one wake-up on the server has done what `HandlePass` does with
      the completions it took, and it took them in the order they were posted, those that arrived meanwhile included. */
  lemma PassIsProgram(cfg: Config, n: nat, states: seq<System>, steps: seq<Step>, i: nat, j: nat)
    requires Run(cfg, n, states, steps) && i <= j < |states|
    requires forall k :: i <= k < j ==> steps[k].HandleNext? || steps[k].Internal?
    ensures InPass(cfg, states[i], Reaped(states, steps, i, j), states[j])
  {
    PassBegins(cfg, states[i]);
    for m := i to j
      invariant InPass(cfg, states[i], Reaped(states, steps, i, m), states[m])
    {
      PassGrows(cfg, n, states, steps, i, m);
    }
  }
}
