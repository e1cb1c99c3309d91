/** The echo server and the kernel as one system, and what every run of it keeps. */
module EchoProtocol {
  import opened Sums
  import opened Uring
  import opened EchoLoop
  import opened Accounts
  import opened Streams

  /** The server is either inside `io_uring_submit_and_wait` or in a pass over the completions. A pass remembers
      how many completions it has handled, and the live connections and unfinished operations it started with. */
  datatype Phase = Submitting | Handling(count: nat, liveAtWake: nat, pendingAtWake: nat)

  datatype System = System(v: Server, k: Kernel, phase: Phase)

  datatype Step =
    | Submit                  // the kernel consumes the head of the submission queue
    | Wake                    // the submit call returns: everything queued was consumed
    | Internal(t: KStep)      // the kernel works, whatever the server is doing
    | HandleNext              // the server handles the next completion
    | Sleep                   // no completion is left: the next submit call

  /** What can happen next, by the queues and by where the server is. */
  predicate Ready(sq: seq<Sqe>, k: Kernel, phase: Phase, step: Step) {
    match step
    case Submit => phase.Submitting? && sq != []
    case Wake => phase.Submitting? && sq == []
    case Internal(t) => Enabled(k, t)
    case HandleNext => phase.Handling? && k.cq != []
    case Sleep => phase.Handling? && k.cq == []
  }

  predicate CanStep(s: System, step: Step) {
    !s.v.Stopped() && Ready(s.v.sq, s.k, s.phase, step)
  }

  /** The kernel after the server has read the head of the completion queue. */
  function Reap(k: Kernel): Kernel
    requires k.cq != []
  {
    k.(cq := k.cq[1..])
  }

  function Next(cfg: Config, s: System, step: Step): System
    requires CanStep(s, step)
  {
    match step
    case Submit => s.(k := Issue(s.k, s.v.sq[0]), v := s.v.(sq := s.v.sq[1..]))
    case Wake => s.(phase := Handling(0, |s.v.live|, |s.k.armed| + |s.k.cq|))
    case Internal(t) => s.(k := Apply(s.k, t))
    case HandleNext =>
      s.(v := Handle(cfg, s.v, s.k.cq[0]), k := Reap(s.k), phase := s.phase.(count := s.phase.count + 1))
    case Sleep => s.(phase := Submitting)
  }

  /** The state in which the event loop is entered: `n` buffers registered, one accept queued. */
  ghost predicate Initial(cfg: Config, n: nat, s: System) {
    && cfg.entries > 0
    && s.v == Boot(cfg)
    && s.phase.Submitting?
    && s.k.armed == [] && s.k.cq == []
    && s.k.pool == BufferIds(n) && |s.k.bufs| == n
    && (forall b :: 0 <= b < n ==> |s.k.bufs[b]| == MAX_MESSAGE_LEN)
    && s.k.open == {} && s.k.due == map[] && s.k.trail == map[]
  }

  /** `states` is a run that takes the steps `steps`. */
  ghost predicate Run(cfg: Config, n: nat, states: seq<System>, steps: seq<Step>) {
    && |states| == |steps| + 1
    && Initial(cfg, n, states[0])
    && forall i :: 0 <= i < |steps| ==> CanStep(states[i], steps[i]) && states[i + 1] == Next(cfg, states[i], steps[i])
  }

  // ----- One pass -----

  ghost predicate PassBounded(s: System) {
    s.phase.Handling? ==>
      && s.phase.count + |s.k.armed| + |s.k.cq| == s.phase.pendingAtWake
      && |s.v.sq| + 2 * (Sum(s.k.armed, OfArmed(Busy)) + Sum(s.k.cq, OfCqe(Busy))) <= 2 * s.phase.liveAtWake + 2
  }

  ghost predicate Inv(n: nat, s: System) {
    && Accounted(n, s.v.sq, s.k, s.v.live, multiset(s.v.shut))
    && Sized(n, s.v.sq, s.k)
    && StreamsSettled(s.v.sq, s.k, s.v.live)
    && PassBounded(s)
  }

  // ----- Initially -----

  lemma InitialInv(cfg: Config, n: nat, s: System)
    requires Initial(cfg, n, s)
    ensures Inv(n, s)
  {
    forall w ensures Balanced(n, s.v.sq, s.k, {}, multiset{}, w) {
      assert s.v.sq == [AcceptSqe(cfg)];
      assert Sum(s.v.sq, OfSqe(w)) == SqeWeight(w, AcceptSqe(cfg)) + Sum([], OfSqe(w));
    }
  }

  // ----- Submit -----

  lemma SubmitInv(cfg: Config, n: nat, s: System)
    requires Inv(n, s) && CanStep(s, Submit)
    ensures Inv(n, Next(cfg, s, Submit))
  {
    IssueKeepsAccounts(n, s.v.sq, s.k, s.v.live, multiset(s.v.shut));
    IssueKeepsSizes(n, s.v.sq, s.k);
    IssueKeepsStreams(s.v.sq, s.k, s.v.live);
  }

  // ----- Kernel steps -----

  lemma InternalInv(cfg: Config, n: nat, s: System, t: KStep)
    requires Inv(n, s) && CanStep(s, Internal(t))
    ensures Inv(n, Next(cfg, s, Internal(t)))
  {
    StepKeepsAccounts(n, s.v.sq, s.k, s.v.live, multiset(s.v.shut), t);
    StepKeepsSizes(n, s.v.sq, s.k, t);
    StepKeepsStreams(n, s.v.sq, s.k, s.v.live, multiset(s.v.shut), t);
    assert s.k.armed[t.i] in s.k.armed;
    StepTotal([], s.k, t, Busy);
  }

  // ----- The pass over the completions -----

  lemma WakeInv(cfg: Config, n: nat, s: System)
    requires Inv(n, s) && CanStep(s, Wake)
    ensures Inv(n, Next(cfg, s, Wake))
  {
    assert Balanced(n, s.v.sq, s.k, s.v.live, multiset(s.v.shut), Busy);
  }

  /** The entries the server queues in answer to one completion. */
  function Reply(cfg: Config, c: Cqe): seq<Sqe> {
    match c.data.kind
    case PROV_BUF => []
    case ACCEPT => if c.res >= 0 then [ReadSqe(c.res), AcceptSqe(cfg)] else [AcceptSqe(cfg)]
    case READ =>
      if c.res <= 0 then [ProvideSqe(c.SelectedBuffer())] else [WriteSqe(c.data.fd, c.SelectedBuffer(), c.res)]
    case WRITE => [ProvideSqe(c.data.bid), ReadSqe(c.data.fd)]
  }

  predicate Opens(c: Cqe) { c.data.kind.ACCEPT? && c.res >= 0 }

  predicate Ends(c: Cqe) { c.data.kind.READ? && c.res <= 0 && !c.OutOfBuffers() }

  function LiveAfter(live: set<nat>, c: Cqe): set<nat> {
    if Opens(c) then live + {c.res} else if Ends(c) then live - {c.data.fd} else live
  }

  function ShutAfter(shut: seq<nat>, c: Cqe): seq<nat> {
    if Ends(c) then shut + [c.data.fd] else shut
  }

  /** A server that goes on after a completion has queued the reply and updated its connections. */
  lemma HandleEffect(cfg: Config, v: Server, c: Cqe)
    requires !v.Stopped() && !Handle(cfg, v, c).Stopped()
    ensures !c.OutOfBuffers()
    ensures Handle(cfg, v, c) == v.(sq := v.sq + Reply(cfg, c), live := LiveAfter(v.live, c), shut := ShutAfter(v.shut, c))
  {
    if c.data.kind.PROV_BUF? { assert v.sq + [] == v.sq; }
  }

  /** How the totals change when the reply to `c` takes the place of `c`. */
  function ReplyGain(c: Cqe, w: Weight): int {
    match w
    case Buffer(_) => 0
    case Connection(fd) => Bit(Opens(c) && c.res == fd) - Bit(Ends(c) && c.data.fd == fd)
    case Fresh(fd) => -Bit(Opens(c) && c.res == fd)
    case Listener => 0
    case Demand => Bit(Opens(c)) - Bit(Ends(c))
    case Busy => Bit(Opens(c)) - Bit(Ends(c))
  }

  lemma ReplyWeight(cfg: Config, c: Cqe, w: Weight)
    requires !c.OutOfBuffers()
    ensures Sum(Reply(cfg, c), OfSqe(w)) == CqeWeight(w, c) + ReplyGain(c, w)
  {
    var r := Reply(cfg, c);
    if r != [] {
      SumFew(r[0], r[|r| - 1], OfSqe(w));
      assert r == [r[0]] || r == [r[0], r[1]];
    }
  }

  lemma ReplyTotal(cfg: Config, sq: seq<Sqe>, k: Kernel, w: Weight)
    requires k.cq != [] && !k.cq[0].OutOfBuffers()
    ensures Total(sq + Reply(cfg, k.cq[0]), Reap(k), w) == Total(sq, k, w) + ReplyGain(k.cq[0], w)
  {
    var c := k.cq[0];
    SumAppend(sq, Reply(cfg, c), OfSqe(w));
    ReplyWeight(cfg, c, w);
    assert Sum(k.cq, OfCqe(w)) == CqeWeight(w, c) + Sum(k.cq[1..], OfCqe(w));
  }

  /** A descriptor being adopted is not live, and one being shut down is. */
  lemma OpensOrEnds(n: nat, sq: seq<Sqe>, k: Kernel, live: set<nat>, dead: multiset<nat>)
    requires k.cq != [] && Accounted(n, sq, k, live, dead)
    ensures Opens(k.cq[0]) ==> k.cq[0].res !in live
    ensures Ends(k.cq[0]) ==> k.cq[0].data.fd in live
  {
    var c := k.cq[0];
    assert c in k.cq;
    if Opens(c) {
      SumsAtLeast(sq, k, Fresh(c.res));
      assert Balanced(n, sq, k, live, dead, Fresh(c.res));
    } else if Ends(c) {
      SumsAtLeast(sq, k, Connection(c.data.fd));
      assert Balanced(n, sq, k, live, dead, Connection(c.data.fd));
    }
  }

  lemma LiveCount(live: set<nat>, c: Cqe)
    requires (Opens(c) ==> c.res !in live) && (Ends(c) ==> c.data.fd in live)
    ensures |LiveAfter(live, c)| == |live| + Bit(Opens(c)) - Bit(Ends(c))
  {
  }

  lemma HandleKeepsBalance(cfg: Config, n: nat, sq: seq<Sqe>, k: Kernel, live: set<nat>, shut: seq<nat>, w: Weight)
    requires k.cq != [] && !k.cq[0].OutOfBuffers()
    requires Accounted(n, sq, k, live, multiset(shut))
    ensures var c := k.cq[0];
            Balanced(n, sq + Reply(cfg, c), Reap(k), LiveAfter(live, c), multiset(ShutAfter(shut, c)), w)
  {
    var c := k.cq[0];
    assert Balanced(n, sq, k, live, multiset(shut), w);
    ReplyTotal(cfg, sq, k, w);
    OpensOrEnds(n, sq, k, live, multiset(shut));
    LiveCount(live, c);
  }

  lemma HandleKeepsAccounts(cfg: Config, n: nat, sq: seq<Sqe>, k: Kernel, live: set<nat>, shut: seq<nat>)
    requires k.cq != [] && !k.cq[0].OutOfBuffers()
    requires Accounted(n, sq, k, live, multiset(shut))
    ensures var c := k.cq[0];
            Accounted(n, sq + Reply(cfg, c), Reap(k), LiveAfter(live, c), multiset(ShutAfter(shut, c)))
  {
    var c := k.cq[0];
    forall w ensures Balanced(n, sq + Reply(cfg, c), Reap(k), LiveAfter(live, c), multiset(ShutAfter(shut, c)), w) {
      HandleKeepsBalance(cfg, n, sq, k, live, shut, w);
    }
  }

  /** The reply entries belong to a connection that is settled, or to one that is new. */
  lemma ReplySettled(cfg: Config, n: nat, sq: seq<Sqe>, k: Kernel, live: set<nat>, shut: seq<nat>)
    requires k.cq != [] && !k.cq[0].OutOfBuffers()
    requires Accounted(n, sq, k, live, multiset(shut)) && StreamsSettled(sq, k, live)
    ensures forall e :: e in Reply(cfg, k.cq[0]) ==> SqeSettled(k, e)
  {
    var c := k.cq[0];
    assert c in k.cq && CqeSettled(k, c);
    if Opens(c) {
      assert Balanced(n, sq, k, live, multiset(shut), Fresh(c.res));
      SumsAtLeast(sq, k, Fresh(c.res));
      assert Settled(k, c.res, []);
    }
  }

  /** The reply carries on the stream of the connection it serves, and no other entry belongs to that connection. */
  lemma HandleKeepsStreams(cfg: Config, n: nat, sq: seq<Sqe>, k: Kernel, live: set<nat>, shut: seq<nat>)
    requires k.cq != [] && !k.cq[0].OutOfBuffers()
    requires Accounted(n, sq, k, live, multiset(shut)) && StreamsSettled(sq, k, live)
    ensures var c := k.cq[0]; StreamsSettled(sq + Reply(cfg, c), Reap(k), LiveAfter(live, c))
  {
    var c, k' := k.cq[0], Reap(k);
    StreamsFrame(k, k');
    assert c in k.cq && CqeSettled(k, c);
    ReplySettled(cfg, n, sq, k, live, shut);
    forall e | e in Reply(cfg, c) ensures SqeSettled(k', e) {
    }
  }

  lemma HandleKeepsSizes(cfg: Config, n: nat, sq: seq<Sqe>, k: Kernel)
    requires k.cq != [] && Sized(n, sq, k)
    ensures Sized(n, sq + Reply(cfg, k.cq[0]), Reap(k))
  {
    var c := k.cq[0];
    assert c in k.cq && CqeSized(c);
  }

  lemma HandleKeepsBound(cfg: Config, s: System)
    requires CanStep(s, HandleNext) && PassBounded(s) && !Next(cfg, s, HandleNext).v.Stopped()
    ensures PassBounded(Next(cfg, s, HandleNext))
  {
    var c := s.k.cq[0];
    HandleEffect(cfg, s.v, c);
    assert Sum(s.k.cq, OfCqe(Busy)) == CqeWeight(Busy, c) + Sum(s.k.cq[1..], OfCqe(Busy));
  }

  lemma HandleInv(cfg: Config, n: nat, s: System)
    requires Inv(n, s) && CanStep(s, HandleNext) && !Next(cfg, s, HandleNext).v.Stopped()
    ensures Inv(n, Next(cfg, s, HandleNext))
  {
    HandleEffect(cfg, s.v, s.k.cq[0]);
    HandleKeepsAccounts(cfg, n, s.v.sq, s.k, s.v.live, s.v.shut);
    HandleKeepsSizes(cfg, n, s.v.sq, s.k);
    HandleKeepsStreams(cfg, n, s.v.sq, s.k, s.v.live, s.v.shut);
    HandleKeepsBound(cfg, s);
  }

  // ----- Every run -----

  lemma StepInv(cfg: Config, n: nat, s: System, step: Step)
    requires Inv(n, s) && CanStep(s, step)
    ensures var s' := Next(cfg, s, step); s'.v.Stopped() || Inv(n, s')
  {
    match step
    case Submit => SubmitInv(cfg, n, s);
    case Wake => WakeInv(cfg, n, s);
    case Internal(t) => InternalInv(cfg, n, s, t);
    case HandleNext => if !Next(cfg, s, step).v.Stopped() { HandleInv(cfg, n, s); }
    case Sleep =>
  }

  lemma {:induction false} RunInv(cfg: Config, n: nat, states: seq<System>, steps: seq<Step>, i: nat)
    requires Run(cfg, n, states, steps) && i < |states|
    ensures states[i].v.Stopped() || Inv(n, states[i])
    ensures i < |steps| ==> Inv(n, states[i])
  {
    if i == 0 {
      InitialInv(cfg, n, states[0]);
    } else {
      RunInv(cfg, n, states, steps, i - 1);
      assert CanStep(states[i - 1], steps[i - 1]);
      StepInv(cfg, n, states[i - 1], steps[i - 1]);
    }
    if i < |steps| { assert CanStep(states[i], steps[i]); }
  }
}
