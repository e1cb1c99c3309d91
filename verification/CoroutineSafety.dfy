/** What the coroutine server keeps in every run, whatever its reads return: where it parts from the event loop after a
    failed read, its frames, buffers and operations still stay in order. */
module CoroutineSafety {
  import opened Sums
  import opened Uring
  import opened EchoCoroutine
  import opened Accounts
  import opened CoroutineRefinement
  import L = EchoLoop
  import P = EchoProtocol
  import EQ = EchoQueue
  import T = EchoTheorems

  // ----- The reply to a completion -----

  /** `size_r <= 0`. */
  predicate TakenForEnd(c: Cqe) { c.data.kind.READ? && ToSize(c.res) == 0 }

  /** The completion the event loop would have to see to treat the connection alike. */
  function Seen(c: Cqe): Cqe {
    if c.data.kind.READ? then c.(res := if TakenForEnd(c) then 0 else 1) else c
  }

  /** The entries the coroutine queues, up to tag fields that are not read. */
  function ReplyTo(cfg: Config, c: Cqe): seq<Sqe> {
    if c.data.kind.READ? && !TakenForEnd(c)
    then [L.WriteSqe(c.data.fd, c.SelectedBuffer(), ToLength(ToSize(c.res)))]
    else P.Reply(cfg, Seen(c))
  }

  /** `v` after the reply to `c`. */
  function Replied(cfg: Config, v: L.Server, c: Cqe): L.Server {
    v.(sq := v.sq + ReplyTo(cfg, c), live := P.LiveAfter(v.live, Seen(c)), shut := P.ShutAfter(v.shut, Seen(c)))
  }

  lemma ReadReplied(cfg: Config, v: Server, c: Cqe, junk: Promise)
    requires !v.Stopped() && FramesOk(v) && c.data.kind.READ? && !c.OutOfBuffers() && CqeServed(v, c)
    requires !Handle(cfg, v, c, junk).Stopped()
    ensures AbsServer(Handle(cfg, v, c, junk)) == Replied(cfg, AbsServer(v), NormCqe()(c))
  {
    assert Connected(v, c.data.fd);
    if TakenForEnd(c) {
      EndCommutes(cfg, v, c.data.fd, c.SelectedBuffer());
    } else {
      BytesCommute(cfg, v, c.data.fd, c.SelectedBuffer(), ToSize(c.res));
    }
  }

  lemma LoopReplied(cfg: Config, v: L.Server, c: Cqe)
    requires !v.Stopped() && !L.Handle(cfg, v, c).Stopped() && !c.data.kind.READ?
    ensures L.Handle(cfg, v, c) == Replied(cfg, v, c)
  {
    P.HandleEffect(cfg, v, c);
  }

  /** A server that goes on after a completion has queued the reply and updated its connections, and its frames are in
      order. */
  lemma HandleReplies(cfg: Config, n: nat, s: System, junk: Promise)
    requires SafeInv(n, s) && CanStep(s, P.HandleNext)
    ensures var s' := Next(cfg, s, P.HandleNext, junk);
            && !s'.v.misused
            && (!s'.v.Stopped() ==>
                  && !s.k.cq[0].OutOfBuffers()
                  && AbsServer(s'.v) == Replied(cfg, AbsServer(s.v), NormCqe()(s.k.cq[0]))
                  && FramesOk(s'.v) && Served(s'.v, s'.v.sq, s'.k))
  {
    var c, v, k' := s.k.cq[0], s.v, P.Reap(s.k);
    var v' := Handle(cfg, v, c, junk);
    assert c in s.k.cq && CqeServed(v, c);
    if !c.OutOfBuffers() {
      match c.data.kind {
        case READ =>
          CoHandledIsAlone(n, s, c.data.fd);
          ReadServed(cfg, v, c, junk, k');
          if !v'.Stopped() { ReadReplied(cfg, v, c, junk); }
        case WRITE =>
          CoHandledIsAlone(n, s, c.data.fd);
          WriteSimulates(cfg, v, c, junk);
          if !v'.Stopped() {
            WriteServed(cfg, v, c, junk, k');
            LoopReplied(cfg, AbsServer(v), NormCqe()(c));
          }
        case ACCEPT =>
          if c.res >= 0 { CoHandledIsAlone(n, s, c.res); }
          AcceptSimulates(cfg, v, c, junk);
          if !v'.Stopped() {
            AcceptServed(cfg, v, c, junk, k');
            LoopReplied(cfg, AbsServer(v), NormCqe()(c));
          }
        case PROV_BUF =>
          if c.res >= 0 { LoopReplied(cfg, AbsServer(v), NormCqe()(c)); }
      }
    }
  }

  // ----- Conservation -----

  lemma SeenWeight(c: Cqe, w: Weight)
    requires !c.OutOfBuffers()
    ensures !Seen(c).OutOfBuffers() && CqeWeight(w, Seen(c)) == CqeWeight(w, c)
  {
  }

  lemma ReplyWeighs(cfg: Config, c: Cqe, w: Weight)
    requires !c.OutOfBuffers()
    ensures Sum(ReplyTo(cfg, c), OfSqe(w)) == CqeWeight(w, c) + P.ReplyGain(Seen(c), w)
  {
    SeenWeight(c, w);
    P.ReplyWeight(cfg, Seen(c), w);
    if c.data.kind.READ? && !TakenForEnd(c) {
      SumFew(ReplyTo(cfg, c)[0], ReplyTo(cfg, c)[0], OfSqe(w));
    }
  }

  /** The totals after the reply. */
  lemma RepliedTotal(cfg: Config, sq: seq<Sqe>, k: Kernel, w: Weight)
    requires k.cq != [] && !k.cq[0].OutOfBuffers()
    ensures Total(sq + ReplyTo(cfg, k.cq[0]), P.Reap(k), w) == Total(sq, k, w) + P.ReplyGain(Seen(k.cq[0]), w)
  {
    var c := k.cq[0];
    SumAppend(sq, ReplyTo(cfg, c), OfSqe(w));
    ReplyWeighs(cfg, c, w);
    assert Sum(k.cq, OfCqe(w)) == CqeWeight(w, c) + Sum(k.cq[1..], OfCqe(w));
  }

  /** A descriptor being adopted is not live, and one being shut down is. */
  lemma OpensOrEnds(n: nat, sq: seq<Sqe>, k: Kernel, live: set<nat>, dead: multiset<nat>)
    requires k.cq != [] && !k.cq[0].OutOfBuffers() && Accounted(n, sq, k, live, dead)
    ensures var c := Seen(k.cq[0]); (P.Opens(c) ==> c.res !in live) && (P.Ends(c) ==> c.data.fd in live)
  {
    var c := k.cq[0];
    assert c in k.cq;
    if c.data.kind.READ? {
      SumsAtLeast(sq, k, Connection(c.data.fd));
      assert Balanced(n, sq, k, live, dead, Connection(c.data.fd));
    } else {
      P.OpensOrEnds(n, sq, k, live, dead);
    }
  }

  lemma ReplyKeepsBalance(cfg: Config, n: nat, sq: seq<Sqe>, k: Kernel, live: set<nat>, shut: seq<nat>, w: Weight)
    requires k.cq != [] && !k.cq[0].OutOfBuffers() && Accounted(n, sq, k, live, multiset(shut))
    ensures var c := k.cq[0];
            Balanced(n, sq + ReplyTo(cfg, c), P.Reap(k), P.LiveAfter(live, Seen(c)), multiset(P.ShutAfter(shut, Seen(c))), w)
  {
    assert Balanced(n, sq, k, live, multiset(shut), w);
    RepliedTotal(cfg, sq, k, w);
    OpensOrEnds(n, sq, k, live, multiset(shut));
    P.LiveCount(live, Seen(k.cq[0]));
  }

  lemma ReplyKeepsAccounts(cfg: Config, n: nat, v: L.Server, k: Kernel)
    requires k.cq != [] && !k.cq[0].OutOfBuffers() && Accounted(n, v.sq, k, v.live, multiset(v.shut))
    ensures var v' := Replied(cfg, v, k.cq[0]); Accounted(n, v'.sq, P.Reap(k), v'.live, multiset(v'.shut))
  {
    var v' := Replied(cfg, v, k.cq[0]);
    forall w ensures Balanced(n, v'.sq, P.Reap(k), v'.live, multiset(v'.shut), w) {
      ReplyKeepsBalance(cfg, n, v.sq, k, v.live, v.shut, w);
    }
  }

  lemma HandleKeepsSafe(cfg: Config, n: nat, s: System, junk: Promise)
    requires SafeInv(n, s) && CanStep(s, P.HandleNext)
    ensures var s' := Next(cfg, s, P.HandleNext, junk); !s'.v.misused && (s'.v.Stopped() || SafeInv(n, s'))
  {
    HandleReplies(cfg, n, s, junk);
    MapTail(NormCqe(), s.k.cq);
    if !Next(cfg, s, P.HandleNext, junk).v.Stopped() {
      ReplyKeepsAccounts(cfg, n, Abs(s).v, Abs(s).k);
    }
  }

  // ----- Every run -----

  ghost predicate Safe(n: nat, s: System) { !s.v.misused && (s.v.Stopped() || SafeInv(n, s)) }

  lemma StepKeepsSafe(cfg: Config, n: nat, s: System, step: P.Step, s': System, junk: Promise)
    requires CanStep(s, step) && s' == Next(cfg, s, step, junk) && Safe(n, s)
    ensures Safe(n, s')
  {
    var a := Abs(s);
    match step {
      case Submit =>
        SubmitSimulates(cfg, n, s, junk);
        IssueKeepsAccounts(n, a.v.sq, a.k, a.v.live, multiset(s.v.shut));
      case Internal(t) =>
        InternalSimulates(cfg, n, s, t, junk);
        StepKeepsAccounts(n, a.v.sq, a.k, a.v.live, multiset(s.v.shut), t);
      case HandleNext => HandleKeepsSafe(cfg, n, s, junk);
      case Wake =>
      case Sleep =>
    }
  }

  lemma RunIsSafe(cfg: Config, n: nat, states: seq<System>, steps: seq<P.Step>, junk: seq<Promise>, i: nat)
    requires Run(cfg, n, states, steps, junk) && i < |states|
    ensures Safe(n, states[i])
  {
    InitialInv(cfg, n, states[0]);
    for j := 0 to i
      invariant Safe(n, states[j])
    {
      StepKeepsSafe(cfg, n, states[j], steps[j], states[j + 1], junk[j]);
    }
  }

  /** No run resumes a finished or unknown frame. Between events the frames that exist are exactly those of the
      connections, each once, and every other frame was destroyed exactly once. */
  lemma FrameSafety(cfg: Config, n: nat, states: seq<System>, steps: seq<P.Step>, junk: seq<Promise>, i: nat, id: nat)
    requires Run(cfg, n, states, steps, junk) && i < |states|
    ensures var v := states[i].v;
            && !v.misused
            && (!v.Stopped() && id < |v.frames| ==>
                  if v.frames[id].Suspended? then
                    multiset(v.destroyed)[id] == 0 && v.frames[id].fd in v.connections && v.connections[v.frames[id].fd] == id
                  else multiset(v.destroyed)[id] == 1 && id !in v.connections.Values)
  {
    RunIsSafe(cfg, n, states, steps, junk, i);
    var v := states[i].v;
    if !v.Stopped() && id < |v.frames| && v.frames[id].Destroyed? {
      forall fd | fd in v.connections ensures v.connections[fd] != id {
        assert Connected(v, fd);
      }
    }
  }

  /** Every buffer is in exactly one place. */
  lemma CoroutineBufferConservation(
      cfg: Config, n: nat, states: seq<System>, steps: seq<P.Step>, junk: seq<Promise>, i: nat, bid: nat)
    requires Run(cfg, n, states, steps, junk) && i < |states| && !states[i].v.Stopped()
    ensures var a := Abs(states[i]); Total(a.v.sq, a.k, Buffer(bid)) + Bit(bid in a.k.pool) == Bit(bid < n)
  {
    RunIsSafe(cfg, n, states, steps, junk, i);
    var s := states[i];
    assert Balanced(n, Abs(s).v.sq, Abs(s).k, Abs(s).v.live, multiset(s.v.shut), Buffer(bid));
  }

  /** One accept is outstanding, one operation for every entry of `connections`, and none for any other descriptor. */
  lemma CoroutineOneOutstanding(
      cfg: Config, n: nat, states: seq<System>, steps: seq<P.Step>, junk: seq<Promise>, i: nat, fd: nat)
    requires Run(cfg, n, states, steps, junk) && i < |states| && !states[i].v.Stopped()
    ensures var a := Abs(states[i]);
            && Total(a.v.sq, a.k, Listener) == 1
            && Total(a.v.sq, a.k, Connection(fd)) == Bit(fd in states[i].v.connections)
  {
    RunIsSafe(cfg, n, states, steps, junk, i);
    var s := states[i];
    assert Balanced(n, Abs(s).v.sq, Abs(s).k, Abs(s).v.live, multiset(s.v.shut), Listener);
    assert Balanced(n, Abs(s).v.sq, Abs(s).k, Abs(s).v.live, multiset(s.v.shut), Connection(fd));
  }

  // ----- Starvation -----

  lemma ReplySuppliesFirst(cfg: Config, c: Cqe)
    ensures T.SuppliesFirst(ReplyTo(cfg, c))
  {
    var r := ReplyTo(cfg, c);
    T.LoopSuppliesFirst(cfg, Seen(c));
    if c.data.kind.READ? && !TakenForEnd(c) {
      forall j | 0 < j <= |r| ensures r[..j] == r {}
    }
  }

  ghost predicate Fed(s: System) {
    s.v.Stopped() || (T.Supplied(Abs(s).v.sq, Abs(s).k) && T.NoRefusal(Abs(s).k))
  }

  lemma HandleKeepsFed(cfg: Config, n: nat, s: System, s': System, junk: Promise)
    requires SafeInv(n, s) && CanStep(s, P.HandleNext) && s' == Next(cfg, s, P.HandleNext, junk) && Fed(s)
    requires |s'.v.connections| <= n
    ensures Fed(s')
  {
    HandleReplies(cfg, n, s, junk);
    MapTail(NormCqe(), s.k.cq);
    if !s'.v.Stopped() {
      assert |s'.v.connections.Keys| == |s'.v.connections|;
      RepliedIsFed(cfg, n, Abs(s).v, Abs(s).k);
    }
  }

  lemma RepliedIsFed(cfg: Config, n: nat, v: L.Server, k: Kernel)
    requires k.cq != [] && !k.cq[0].OutOfBuffers() && Accounted(n, v.sq, k, v.live, multiset(v.shut))
    requires T.Supplied(v.sq, k) && T.NoRefusal(k) && |Replied(cfg, v, k.cq[0]).live| <= n
    ensures T.Supplied(Replied(cfg, v, k.cq[0]).sq, P.Reap(k)) && T.NoRefusal(P.Reap(k))
  {
    var v' := Replied(cfg, v, k.cq[0]);
    ReplyKeepsBalance(cfg, n, v.sq, k, v.live, v.shut, Demand);
    ReplySuppliesFirst(cfg, k.cq[0]);
    assert k.cq[0] in k.cq;
    T.ReplyKeepsSupply(n, v.sq, ReplyTo(cfg, k.cq[0]), k, P.Reap(k), v'.live, multiset(v'.shut));
  }

  lemma StepKeepsFed(cfg: Config, n: nat, s: System, step: P.Step, s': System, junk: Promise)
    requires Safe(n, s) && CanStep(s, step) && s' == Next(cfg, s, step, junk) && Fed(s) && |s'.v.connections| <= n
    ensures Fed(s')
  {
    var a := Abs(s);
    match step {
      case Submit =>
        SubmitSimulates(cfg, n, s, junk);
        assert a.v.sq[0] in a.v.sq;
        T.SubmitKeepsSupply(n, a.v.sq, a.k, a.v.live, multiset(s.v.shut));
      case Internal(t) =>
        InternalSimulates(cfg, n, s, t, junk);
        T.InternalKeepsFed(n, a.v.sq, a.k, a.v.live, multiset(s.v.shut), t);
      case HandleNext => HandleKeepsFed(cfg, n, s, s', junk);
      case Wake =>
      case Sleep =>
    }
  }

  /** With at most `n` connections at once no receive is ever refused a buffer, failed reads or not. */
  lemma CoroutineNoStarvation(
      cfg: Config, n: nat, states: seq<System>, steps: seq<P.Step>, junk: seq<Promise>, i: nat)
    requires Run(cfg, n, states, steps, junk) && i < |states|
    requires forall j :: 0 <= j <= i ==> |states[j].v.connections| <= n
    ensures Fed(states[i])
    ensures !states[i].v.Stopped() ==> forall j :: !Enabled(states[i].k, RecvStarved(j))
  {
    InitiallyFed(cfg, n, states[0]);
    for j := 0 to i
      invariant Fed(states[j])
    {
      RunIsSafe(cfg, n, states, steps, junk, j);
      StepKeepsFed(cfg, n, states[j], steps[j], states[j + 1], junk[j]);
    }
    if !states[i].v.Stopped() { FedIsNotStarved(states[i]); }
  }

  lemma InitiallyFed(cfg: Config, n: nat, s: System)
    requires s.v == Boot(cfg) && P.Initial(cfg, n, Abs(s))
    ensures Fed(s)
  {
    T.InitiallySupplied(cfg, n, Abs(s));
  }

  lemma FedIsNotStarved(s: System)
    requires Fed(s) && !s.v.Stopped()
    ensures forall j :: !Enabled(s.k, RecvStarved(j))
  {
    forall j: nat ensures !Enabled(s.k, RecvStarved(j)) {
      T.SuppliedIsNotStarved(Abs(s).v.sq, Abs(s).k, j);
      if Enabled(s.k, RecvStarved(j)) { ApplyCommutes(s.k, RecvStarved(j)); }
    }
  }

  // ----- The submission queue -----

  /** What the coroutine does to the state of the loop, room or not. */
  function LoopOn(cfg: Config, v: L.Server, c: Cqe): L.Server {
    if !c.data.kind.READ? then L.Handle(cfg, v, c)
    else if TakenForEnd(c) then L.Shutdown(L.Push(cfg, v, L.ProvideSqe(c.SelectedBuffer())), c.data.fd)
    else L.Push(cfg, v, L.WriteSqe(c.data.fd, c.SelectedBuffer(), ToLength(ToSize(c.res))))
  }

  lemma HandleIsLoopOn(cfg: Config, n: nat, s: System, junk: Promise)
    requires SafeInv(n, s) && CanStep(s, P.HandleNext) && !s.k.cq[0].OutOfBuffers()
    ensures AbsServer(Handle(cfg, s.v, s.k.cq[0], junk)) == LoopOn(cfg, AbsServer(s.v), NormCqe()(s.k.cq[0]))
  {
    var c, v := s.k.cq[0], s.v;
    assert c in s.k.cq && CqeServed(v, c);
    match c.data.kind {
      case READ =>
        assert Connected(v, c.data.fd);
        if TakenForEnd(c) {
          EndCommutes(cfg, v, c.data.fd, c.SelectedBuffer());
        } else {
          BytesCommute(cfg, v, c.data.fd, c.SelectedBuffer(), ToSize(c.res));
        }
      case WRITE => WriteSimulates(cfg, v, c, junk);
      case ACCEPT =>
        if c.res >= 0 { CoHandledIsAlone(n, s, c.res); }
        AcceptSimulates(cfg, v, c, junk);
      case PROV_BUF =>
    }
  }

  /** The coroutine meets a full queue exactly when its reply does not fit. */
  lemma LoopOnFault(cfg: Config, v: L.Server, c: Cqe)
    requires !v.Stopped() && !c.OutOfBuffers()
    ensures LoopOn(cfg, v, c).faulted <==> ReplyTo(cfg, c) != [] && |v.sq| + |ReplyTo(cfg, c)| > cfg.entries
    ensures |P.LiveAfter(v.live, Seen(c))| <= |LoopOn(cfg, v, c).live|
  {
    if !c.data.kind.READ? {
      EQ.FaultIff(cfg, v, c);
    } else {
      assert v.live - {c.data.fd} <= v.live && |v.live - {c.data.fd}| <= |v.live|;
    }
  }

  lemma ReplyFits(cfg: Config, n: nat, s: System)
    requires SafeInv(n, s) && CanStep(s, P.HandleNext) && EQ.Tight(Abs(s)) && !s.k.cq[0].OutOfBuffers()
    ensures var a, c := Abs(s), NormCqe()(s.k.cq[0]);
            var room := s.phase.liveAtWake + |P.LiveAfter(a.v.live, Seen(c))| + 1;
            && |a.v.sq| + |ReplyTo(cfg, c)| <= room
            && |a.v.sq| + |ReplyTo(cfg, c)| + 2 * Total([], P.Reap(a.k), Busy) - Total([], P.Reap(a.k), Listener) <= room
  {
    var a, c := Abs(s), NormCqe()(s.k.cq[0]);
    EQ.ReplySize(cfg, Seen(c));
    SeenWeight(c, Busy);
    SeenWeight(c, Listener);
    OpensOrEnds(n, a.v.sq, a.k, a.v.live, multiset(s.v.shut));
    P.LiveCount(a.v.live, Seen(c));
    EQ.ReapedWork(a.k, Busy);
    EQ.ReapedWork(a.k, Listener);
    EQ.ListenersAreBusy(P.Reap(a.k));
  }

  lemma StepFits(cfg: Config, n: nat, s: System, step: P.Step, s': System, junk: Promise, l: nat)
    requires SafeInv(n, s) && CanStep(s, step) && s' == Next(cfg, s, step, junk) && EQ.Tight(Abs(s))
    requires |s'.v.connections| <= l && 2 * l + 1 <= cfg.entries && (s.phase.Handling? ==> s.phase.liveAtWake <= l)
    ensures !s'.v.faulted
  {
    if step.HandleNext? && !s.k.cq[0].OutOfBuffers() {
      ReplyFits(cfg, n, s);
      HandleIsLoopOn(cfg, n, s, junk);
      LoopOnFault(cfg, AbsServer(s.v), NormCqe()(s.k.cq[0]));
      assert |s'.v.connections.Keys| == |s'.v.connections|;
    }
  }

  lemma HandleKeepsTight(cfg: Config, n: nat, s: System, s': System, junk: Promise)
    requires SafeInv(n, s) && CanStep(s, P.HandleNext) && s' == Next(cfg, s, P.HandleNext, junk)
    requires EQ.Tight(Abs(s)) && !s'.v.Stopped()
    ensures EQ.Tight(Abs(s'))
  {
    HandleReplies(cfg, n, s, junk);
    ReplyFits(cfg, n, s);
    MapTail(NormCqe(), s.k.cq);
  }

  lemma WakeKeepsTight(n: nat, s: System)
    requires SafeInv(n, s) && s.v.sq == []
    ensures EQ.Tight(Abs(s.(phase := P.Handling(0, |s.v.connections|, |s.k.armed| + |s.k.cq|))))
  {
    EQ.WakeKeepsTight(n, Abs(s));
    assert |s.v.connections.Keys| == |s.v.connections|;
  }

  lemma StepKeepsTight(cfg: Config, n: nat, s: System, step: P.Step, s': System, junk: Promise)
    requires SafeInv(n, s) && CanStep(s, step) && s' == Next(cfg, s, step, junk) && EQ.Tight(Abs(s)) && !s'.v.Stopped()
    ensures EQ.Tight(Abs(s'))
  {
    var a := Abs(s);
    match step {
      case Submit =>
      case Sleep =>
      case Wake => WakeKeepsTight(n, s);
      case Internal(t) =>
        InternalSimulates(cfg, n, s, t, junk);
        assert a.k.armed[t.i] in a.k.armed;
        EQ.InternalKeepsTight(a, t);
      case HandleNext => HandleKeepsTight(cfg, n, s, s', junk);
    }
  }

  ghost predicate Roomy(s: System, l: nat) {
    !s.v.faulted && (s.v.Stopped() || EQ.Tight(Abs(s))) && (s.phase.Handling? ==> s.phase.liveAtWake <= l)
  }

  lemma StepKeepsRoom(cfg: Config, n: nat, s: System, step: P.Step, s': System, junk: Promise, l: nat)
    requires Safe(n, s) && CanStep(s, step) && s' == Next(cfg, s, step, junk) && Roomy(s, l)
    requires |s.v.connections| <= l && |s'.v.connections| <= l && 2 * l + 1 <= cfg.entries
    ensures Roomy(s', l)
  {
    StepFits(cfg, n, s, step, s', junk, l);
    if !s'.v.Stopped() { StepKeepsTight(cfg, n, s, step, s', junk); }
  }

  /** With at most `l` connections at once and room for `2 * l + 1` entries, `io_uring_get_sqe` never fails. */
  lemma CoroutineQueueNeverOverfills(
      cfg: Config, n: nat, states: seq<System>, steps: seq<P.Step>, junk: seq<Promise>, l: nat, i: nat)
    requires Run(cfg, n, states, steps, junk) && i < |states|
    requires 2 * l + 1 <= cfg.entries && forall j :: 0 <= j <= i ==> |states[j].v.connections| <= l
    ensures !states[i].v.faulted
  {
    for j := 0 to i
      invariant Roomy(states[j], l)
    {
      RunIsSafe(cfg, n, states, steps, junk, j);
      StepKeepsRoom(cfg, n, states[j], steps[j], states[j + 1], junk[j], l);
    }
  }
}
