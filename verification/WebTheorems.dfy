/** What the web server promises over every run in which each read can be served; `WebFiles` says which those are. */
module WebTheorems {
  import opened Sums
  import opened Uring
  import opened WebServer
  import opened Accounts
  import opened Streams
  import opened WebProtocol
  import P = EchoProtocol
  import T = EchoTheorems

  /** `connections.at` never fails, and no frame is resumed that is not suspended. */
  lemma NeverMisused(cfg: Config, n: nat, states: seq<System>, steps: seq<P.Step>, junk: seq<Promise>, i: nat)
    requires Run(cfg, n, states, steps, junk) && i < |states|
    ensures !states[i].v.misused
  {
    RunInv(cfg, n, states, steps, junk, i);
  }

  /** A connection waits for its read, or for its write of the response to what it read, or has finished; then it went
      through read, write, return of the very buffer it read into, and close, each once, and its frame was destroyed
      once and is out of reach. */
  lemma Lifecycle(cfg: Config, n: nat, states: seq<System>, steps: seq<P.Step>, junk: seq<Promise>, i: nat, id: nat)
    requires Run(cfg, n, states, steps, junk) && i < |states| && !states[i].v.Stopped()
    requires id < |states[i].v.frames|
    ensures var v, k := states[i].v, states[i].k;
            var f := v.frames[id];
            if f.Destroyed? then
              Finished(cfg, f.log, f.fd) && multiset(v.destroyed)[id] == 1 && id !in v.connections.Values
            else
              && f.fd in v.connections && v.connections[f.fd] == id && multiset(v.destroyed)[id] == 0
              && (f.point.AtRead? ==> f.log == [ReadQueued])
              && (f.point.AtWrite? ==> Answered(cfg, f.log, f.promise.info.bid, k.Due(f.fd)))
              && !f.point.AtStart?
  {
    RunInv(cfg, n, states, steps, junk, i);
    var v := states[i].v;
    if v.frames[id].Destroyed? {
      forall fd | fd in v.connections ensures v.connections[fd] != id {
        assert Connected(v, fd);
      }
    } else {
      assert Connected(v, v.frames[id].fd) && SessionOk(cfg, v, states[i].k, v.frames[id].fd);
    }
  }

  /** The open client descriptors are the keys of `connections` and those accepted and not yet handed to the server,
      whatever descriptors have been closed and given out again. */
  lemma OpenDescriptors(cfg: Config, n: nat, states: seq<System>, steps: seq<P.Step>, junk: seq<Promise>, i: nat, fd: nat)
    requires Run(cfg, n, states, steps, junk) && i < |states| && !states[i].v.Stopped()
    ensures var v, k := states[i].v, states[i].k;
            && (fd in k.open <==> fd in v.connections || exists c :: c in k.cq && P.Opens(c) && c.res == fd)
            && (fd in v.connections ==> !exists c :: c in k.cq && P.Opens(c) && c.res == fd)
            && Total(v.sq, k, Connection(fd)) == Bit(fd in v.connections)
  {
    RunInv(cfg, n, states, steps, junk, i);
    OpenAreKnown(n, states[i].v.sq, states[i].k, states[i].v.connections.Keys, fd);
  }

  lemma OpenAreKnown(n: nat, sq: seq<Sqe>, k: Kernel, live: set<nat>, fd: nat)
    requires Accounted(n, sq, k, live, multiset{})
    ensures fd in k.open <==> fd in live || exists c :: c in k.cq && P.Opens(c) && c.res == fd
    ensures fd in live ==> !exists c :: c in k.cq && P.Opens(c) && c.res == fd
    ensures Total(sq, k, Connection(fd)) == Bit(fd in live)
  {
    assert Balanced(n, sq, k, live, multiset{}, Connection(fd)) && Balanced(n, sq, k, live, multiset{}, Fresh(fd));
    SumsAtLeast(sq, k, Fresh(fd));
    if Total(sq, k, Fresh(fd)) >= 1 { FreshNeedsCompletion(sq, k, fd); }
    forall c | c in k.cq && P.Opens(c) && c.res == fd ensures CqeWeight(Fresh(fd), c) == 1 {}
  }

  lemma FreshNeedsCompletion(sq: seq<Sqe>, k: Kernel, fd: nat)
    requires Total(sq, k, Fresh(fd)) >= 1
    ensures exists c :: c in k.cq && P.Opens(c) && c.res == fd
  {
    SumOfZeros(sq, OfSqe(Fresh(fd)));
    SumOfZeros(k.armed, OfArmed(Fresh(fd)));
    if forall c :: c in k.cq ==> CqeWeight(Fresh(fd), c) == 0 {
      SumOfZeros(k.cq, OfCqe(Fresh(fd)));
    } else {
      var c :| c in k.cq && CqeWeight(Fresh(fd), c) != 0;
      assert P.Opens(c) && c.res == fd;
    }
  }

  lemma {:induction false} SumOfZeros<T>(s: seq<T>, w: T -> int)
    requires forall x :: x in s ==> w(x) == 0
    ensures Sum(s, w) == 0
  {
    if s != [] {
      assert s[0] in s;
      SumOfZeros(s[1..], w);
    }
  }

  /** Every buffer is in exactly one place. */
  lemma WebBufferConservation(
      cfg: Config, n: nat, states: seq<System>, steps: seq<P.Step>, junk: seq<Promise>, i: nat, bid: nat)
    requires Run(cfg, n, states, steps, junk) && i < |states| && !states[i].v.Stopped()
    ensures Total(states[i].v.sq, states[i].k, Buffer(bid)) + Bit(bid in states[i].k.pool) == Bit(bid < n)
  {
    RunInv(cfg, n, states, steps, junk, i);
    assert Balanced(n, states[i].v.sq, states[i].k, states[i].v.connections.Keys, multiset{}, Buffer(bid));
  }

  /** A coroutine parses exactly the bytes that arrived on its own connection, and when its write completes, the client
      has exactly the response unless the send was cut short. */
  lemma OwnRequestOwnResponse(cfg: Config, n: nat, states: seq<System>, steps: seq<P.Step>, junk: seq<Promise>, i: nat)
    requires Run(cfg, n, states, steps, junk) && i < |steps| && steps[i].HandleNext?
    ensures var v, k, c := states[i].v, states[i].k, states[i].k.cq[0];
            var fd, bid := c.data.fd, c.SelectedBuffer();
            && (c.data.kind.READ? && !c.OutOfBuffers() ==>
                  fd in v.connections && bid < |k.bufs| && c.res <= |k.bufs[bid]| && k.Due(fd) == k.bufs[bid][..c.res])
            && (c.data.kind.WRITE? ==>
                  && fd in v.connections && v.IsSuspended(v.connections[fd])
                  && Answered(cfg, v.frames[v.connections[fd]].log, c.data.bid, k.Due(fd))
                  && (k.Sent(fd) == k.Due(fd) <==> k.Lost(fd) == 0))
  {
    RunInv(cfg, n, states, steps, junk, i);
    var v, k, c := states[i].v, states[i].k, states[i].k.cq[0];
    assert c in k.cq && CqeServed(v, c) && CqeSettled(k, c);
    if c.data.kind.READ? || c.data.kind.WRITE? {
      assert Connected(v, c.data.fd) && SessionOk(cfg, v, k, c.data.fd);
      KeptIsWhole(k.Trail(c.data.fd));
    }
    if c.data.kind.READ? && !c.OutOfBuffers() {
      HandledIsAlone(n, v.sq, k, v.connections.Keys, Buffer(c.SelectedBuffer()));
      assert [] + CqeChunk(k, c) == CqeChunk(k, c);
    }
  }

  /** The condition on reads is exact: with any other read the server runs into undefined behaviour. */
  lemma MisusedIffUnservable(cfg: Config, n: nat, s: System, junk: Promise)
    requires Inv(cfg, n, s) && CanStep(s, P.HandleNext)
    requires s.k.cq[0].data.kind.READ? && !s.k.cq[0].OutOfBuffers() && s.k.cq[0].res > -0x1_0000_0000
    ensures var c := s.k.cq[0];
            Next(cfg, s, P.HandleNext, junk).v.misused <==>
            !(0 <= c.res < MAX_MESSAGE_LEN && Servable(cfg, s.v.bufs, c.SelectedBuffer(), c.res))
  {
    var c, v := s.k.cq[0], s.v;
    assert c in s.k.cq && CqeServed(v, c) && CqeSized(c) && Connected(v, c.data.fd);
    HandledIsAlone(n, v.sq, s.k, v.connections.Keys, Buffer(c.SelectedBuffer()));
    ReadVerdict(cfg, v, c, junk);
  }

  lemma SmallSizes(res: int)
    requires -0x1_0000_0000 < res < 0x1_0000_0000
    ensures ToSize(res) < MAX_MESSAGE_LEN <==> 0 <= res < MAX_MESSAGE_LEN
    ensures 0 <= res < MAX_MESSAGE_LEN ==> ToSize(res) == res
  {
  }

  lemma ReadVerdict(cfg: Config, v: Server, c: Cqe, junk: Promise)
    requires !v.Stopped() && c.data.kind.READ? && !c.OutOfBuffers()
    requires -0x1_0000_0000 < c.res <= MAX_MESSAGE_LEN && At(v, c.data.fd, AtRead) && Connected(v, c.data.fd)
    requires c.SelectedBuffer() < |v.bufs| && |v.bufs[c.SelectedBuffer()]| == MAX_MESSAGE_LEN
    ensures Handle(cfg, v, c, junk).misused <==>
            !(0 <= c.res < MAX_MESSAGE_LEN && Servable(cfg, v.bufs, c.SelectedBuffer(), c.res))
  {
    SmallSizes(c.res);
    if 0 <= c.res < MAX_MESSAGE_LEN && Servable(cfg, v.bufs, c.SelectedBuffer(), c.res) {
      ReadDelivered(cfg, v, c, junk);
    } else {
      UnservableIsMisused(cfg, v, c, junk);
    }
  }

  lemma UnservableIsMisused(cfg: Config, v: Server, c: Cqe, junk: Promise)
    requires !v.Stopped() && c.data.kind.READ? && !c.OutOfBuffers() && At(v, c.data.fd, AtRead)
    requires !Servable(cfg, v.bufs, c.SelectedBuffer(), ToSize(c.res))
    ensures Handle(cfg, v, c, junk).misused
  {
    var id, bid := v.connections[c.data.fd], c.SelectedBuffer();
    var v1 := v.(frames := v.frames[id := v.frames[id].(promise := SetRead(bid, ToSize(c.res))(v.frames[id].promise))]);
    BufferIdOfPointer(cfg, bid, 0);
    assert Handle(cfg, v, c, junk) == AwaitWrite(cfg, v1, id);
  }

  // ----- Starvation -----

  lemma AcceptReply(cfg: Config, v: Server, c: Cqe, junk: Promise) returns (r: seq<Sqe>)
    requires !v.Stopped() && c.data.kind.ACCEPT? && !c.OutOfBuffers() && (c.res >= 0 ==> c.res !in v.connections)
    requires !Handle(cfg, v, c, junk).Stopped()
    ensures Handle(cfg, v, c, junk).sq == v.sq + r && (|r| == 1 || (|r| == 2 && r[1].op.Accept?))
  {
    AcceptDelivered(cfg, v, c, junk);
    r := if c.res >= 0 then [RecvSqe(c.res, junk.info.bid), AcceptSqe(cfg)] else [AcceptSqe(cfg)];
  }

  /** At most two entries, of which the second is an accept, and no more than the weight of the completion. */
  predicate AsBigAs(r: seq<Sqe>, c: Cqe) {
    && (|r| <= 1 || (|r| == 2 && r[1].op.Accept?))
    && |r| <= CqeWeight(Busy, c) + CqeWeight(Listener, c)
  }

  lemma ReadReply(cfg: Config, n: nat, s: System, s': System, junk: Promise) returns (r: seq<Sqe>)
    requires Inv(cfg, n, s) && CanStep(s, P.HandleNext) && ReadsServable(cfg, s, P.HandleNext)
    requires s' == Next(cfg, s, P.HandleNext, junk) && s.k.cq[0].data.kind.READ? && !s'.v.Stopped()
    ensures s'.v.sq == s.v.sq + r && AsBigAs(r, s.k.cq[0])
  {
    ReadHasEffect(cfg, n, s, junk);
    r := ReadQueues(cfg, s.v, P.Reap(s.k), s.k.cq[0], s'.v, s'.k);
  }

  lemma ReadQueues(cfg: Config, v: Server, k: Kernel, c: Cqe, v': Server, k': Kernel) returns (r: seq<Sqe>)
    requires ReadEffect(cfg, v, k, c, v', k')
    ensures v'.sq == v.sq + r && AsBigAs(r, c)
  {
    r := [v'.sq[|v.sq|]];
  }

  lemma WriteReply(cfg: Config, n: nat, s: System, s': System, junk: Promise) returns (r: seq<Sqe>)
    requires Inv(cfg, n, s) && CanStep(s, P.HandleNext)
    requires s' == Next(cfg, s, P.HandleNext, junk) && s.k.cq[0].data.kind.WRITE? && !s'.v.Stopped()
    ensures s'.v.sq == s.v.sq + r && AsBigAs(r, s.k.cq[0])
  {
    var c := s.k.cq[0];
    assert c in s.k.cq && CqeServed(s.v, c) && Connected(s.v, c.data.fd);
    r := WriteQueues(cfg, s.v, c, junk);
  }

  lemma WriteQueues(cfg: Config, v: Server, c: Cqe, junk: Promise) returns (r: seq<Sqe>)
    requires !v.Stopped() && c.data.kind.WRITE? && At(v, c.data.fd, AtWrite) && Connected(v, c.data.fd)
    requires !Handle(cfg, v, c, junk).Stopped()
    ensures Handle(cfg, v, c, junk).sq == v.sq + r && AsBigAs(r, c)
  {
    WriteDelivered(cfg, v, c, junk);
    r := [ProvideSqe(c.data.fd, v.frames[v.connections[c.data.fd]].promise.info.bid)];
  }

  lemma AnnouncedReply(cfg: Config, n: nat, s: System, s': System, junk: Promise) returns (r: seq<Sqe>)
    requires Inv(cfg, n, s) && CanStep(s, P.HandleNext) && s' == Next(cfg, s, P.HandleNext, junk)
    requires s.k.cq[0].data.kind.ACCEPT? && !s'.v.Stopped()
    ensures s'.v.sq == s.v.sq + r && AsBigAs(r, s.k.cq[0])
  {
    var c := s.k.cq[0];
    if c.res >= 0 { assert c in s.k.cq; AnnouncedIsNotLive(n, s.v.sq, s.k, s.v.connections.Keys, c); }
    r := AcceptReply(cfg, s.v, c, junk);
  }

  lemma ReturnedReply(cfg: Config, s: System, s': System, junk: Promise)
    requires CanStep(s, P.HandleNext) && s' == Next(cfg, s, P.HandleNext, junk)
    requires s.k.cq[0].data.kind.PROV_BUF? && !s'.v.Stopped()
    ensures s'.v.sq == s.v.sq + [] && AsBigAs([], s.k.cq[0])
  {
    assert s.v.sq + [] == s.v.sq;
  }

  /** The entries queued in answer to a completion. */
  lemma HandleReply(cfg: Config, n: nat, s: System, s': System, junk: Promise) returns (r: seq<Sqe>)
    requires Inv(cfg, n, s) && CanStep(s, P.HandleNext) && ReadsServable(cfg, s, P.HandleNext)
    requires s' == Next(cfg, s, P.HandleNext, junk) && !s'.v.Stopped()
    ensures s'.v.sq == s.v.sq + r && AsBigAs(r, s.k.cq[0])
  {
    var kind := s.k.cq[0].data.kind;
    if kind.ACCEPT? {
      r := AnnouncedReply(cfg, n, s, s', junk);
    } else if kind.PROV_BUF? {
      ReturnedReply(cfg, s, s', junk);
      r := [];
    } else if kind.READ? {
      r := ReadReply(cfg, n, s, s', junk);
    } else {
      r := WriteReply(cfg, n, s, s', junk);
    }
  }

  lemma HandleKeepsSupply(cfg: Config, n: nat, s: System, s': System, junk: Promise)
    requires Inv(cfg, n, s) && CanStep(s, P.HandleNext) && ReadsServable(cfg, s, P.HandleNext)
    requires s' == Next(cfg, s, P.HandleNext, junk) && !s'.v.Stopped()
    requires T.Supplied(s.v.sq, s.k) && T.NoRefusal(s.k) && |s'.v.connections| <= n
    ensures T.Supplied(s'.v.sq, s'.k) && T.NoRefusal(s'.k)
  {
    StepInv(cfg, n, s, P.HandleNext, s', junk);
    assert Balanced(n, s'.v.sq, s'.k, s'.v.connections.Keys, multiset{}, Demand);
    assert |s'.v.connections.Keys| == |s'.v.connections|;
    var r := HandleReply(cfg, n, s, s', junk);
    WebSuppliesFirst(r);
    assert s.k.cq[0] in s.k.cq;
    T.ReplyKeepsSupply(n, s.v.sq, r, s.k, s'.k, s'.v.connections.Keys, multiset{});
  }

  lemma WebSuppliesFirst(r: seq<Sqe>)
    requires |r| <= 1 || (|r| == 2 && r[1].op.Accept?)
    ensures T.SuppliesFirst(r)
  {
    if r != [] {
      SumFew(r[0], r[|r| - 1], OfSqe(Demand));
      assert r == [r[0]] || r == [r[0], r[1]];
      forall j | 0 < j <= |r| ensures r[..j] == [r[0]] || r[..j] == r {}
    }
  }

  lemma StepKeepsSupply(cfg: Config, n: nat, s: System, step: P.Step, s': System, junk: Promise)
    requires Inv(cfg, n, s) && CanStep(s, step) && ReadsServable(cfg, s, step) && s' == Next(cfg, s, step, junk)
    requires T.Supplied(s.v.sq, s.k) && T.NoRefusal(s.k) && |s'.v.connections| <= n
    ensures s'.v.Stopped() || (T.Supplied(s'.v.sq, s'.k) && T.NoRefusal(s'.k))
  {
    match step
    case Submit =>
      assert s.v.sq[0] in s.v.sq;
      T.SubmitKeepsSupply(n, s.v.sq, s.k, s.v.connections.Keys, multiset{});
    case Internal(t) =>
      T.InternalKeepsFed(n, s.v.sq, s.k, s.v.connections.Keys, multiset{}, t);
    case HandleNext => if !s'.v.Stopped() { HandleKeepsSupply(cfg, n, s, s', junk); }
    case Wake =>
    case Sleep =>
  }

  /** With at most `n` connections at once, no receive is ever refused a buffer. */
  lemma {:induction false} WebNoStarvation(
      cfg: Config, n: nat, states: seq<System>, steps: seq<P.Step>, junk: seq<Promise>, i: nat)
    requires Run(cfg, n, states, steps, junk) && i < |states| && !states[i].v.Stopped()
    requires forall j :: 0 <= j <= i ==> |states[j].v.connections| <= n
    ensures T.Supplied(states[i].v.sq, states[i].k) && T.NoRefusal(states[i].k)
    ensures forall j :: !Enabled(states[i].k, RecvStarved(j))
  {
    InitiallySupplied(cfg, n, states[0]);
    for j := 0 to i
      invariant !states[j].v.Stopped() && T.Supplied(states[j].v.sq, states[j].k) && T.NoRefusal(states[j].k)
    {
      RunInv(cfg, n, states, steps, junk, j);
      StepKeepsSupply(cfg, n, states[j], steps[j], states[j + 1], junk[j]);
      assert j + 1 < i ==> CanStep(states[j + 1], steps[j + 1]);
    }
    forall j: nat ensures !Enabled(states[i].k, RecvStarved(j)) {
      T.SuppliedIsNotStarved(states[i].v.sq, states[i].k, j);
    }
  }

  lemma InitiallySupplied(cfg: Config, n: nat, s: System)
    requires Initial(cfg, n, s)
    ensures T.Supplied(s.v.sq, s.k) && T.NoRefusal(s.k) && !s.v.Stopped()
  {
    forall j | 0 <= j <= |s.v.sq| ensures Total(s.v.sq[..j], s.k, Demand) <= |s.k.pool| {
      SumFew(AcceptSqe(cfg), AcceptSqe(cfg), OfSqe(Demand));
      assert s.v.sq == [AcceptSqe(cfg)];
      assert s.v.sq[..j] == [] || s.v.sq[..j] == s.v.sq;
    }
  }

  // ----- The submission queue -----

  /** A completion is answered by one entry, an accepted connection by two. */
  function Replies(c: Cqe): nat {
    if c.OutOfBuffers() || c.data.kind.PROV_BUF? then 0 else if P.Opens(c) then 2 else 1
  }

  /** The entries a completion is answered by do not fit the submission queue. */
  predicate Overfills(cfg: Config, s: System, step: P.Step) {
    step.HandleNext? && s.k.cq != [] && Replies(s.k.cq[0]) > 0 && |s.v.sq| + Replies(s.k.cq[0]) > cfg.entries
  }

  /** Handling a completion meets a full queue exactly when its entries do not fit, unless it is undefined before. */
  lemma FaultedIffFull(cfg: Config, n: nat, s: System, junk: Promise)
    requires Inv(cfg, n, s) && CanStep(s, P.HandleNext) && !Next(cfg, s, P.HandleNext, junk).v.misused
    ensures Next(cfg, s, P.HandleNext, junk).v.faulted <==> Overfills(cfg, s, P.HandleNext)
  {
    var c, v := s.k.cq[0], s.v;
    assert c in s.k.cq && CqeServed(v, c);
    if !c.OutOfBuffers() {
      match c.data.kind {
        case ACCEPT =>
          if c.res >= 0 { assert c in s.k.cq; AnnouncedIsNotLive(n, v.sq, s.k, v.connections.Keys, c); }
          AcceptFault(cfg, v, c, junk);
        case READ =>
          assert Connected(v, c.data.fd);
          ReadFault(cfg, v, c, junk);
        case WRITE =>
          assert Connected(v, c.data.fd);
          WriteFault(cfg, v, c, junk);
        case PROV_BUF =>
      }
    }
  }

  lemma AcceptFault(cfg: Config, v: Server, c: Cqe, junk: Promise)
    requires !v.Stopped() && c.data.kind.ACCEPT? && !c.OutOfBuffers() && (c.res >= 0 ==> c.res !in v.connections)
    ensures Handle(cfg, v, c, junk).faulted <==> |v.sq| + Replies(c) > cfg.entries
  {
    if c.res >= 0 {
      var v0 := Emplace(v, c.res, junk);
      var v1 := v0.(frames := v0.frames[|v.frames| := v0.frames[|v.frames|].(promise := SetFd(c.res)(junk))]);
      assert Deliver(cfg, v0, c.res, SetFd(c.res)) == AwaitRead(cfg, v1, |v.frames|);
    }
  }

  lemma ReadFault(cfg: Config, v: Server, c: Cqe, junk: Promise)
    requires !v.Stopped() && c.data.kind.READ? && !c.OutOfBuffers() && At(v, c.data.fd, AtRead)
    requires !Handle(cfg, v, c, junk).misused
    ensures Handle(cfg, v, c, junk).faulted <==> |v.sq| + 1 > cfg.entries
  {
    var id, bid := v.connections[c.data.fd], c.SelectedBuffer();
    var v1 := v.(frames := v.frames[id := v.frames[id].(promise := SetRead(bid, ToSize(c.res))(v.frames[id].promise))]);
    assert Handle(cfg, v, c, junk) == AwaitWrite(cfg, v1, id);
  }

  lemma WriteFault(cfg: Config, v: Server, c: Cqe, junk: Promise)
    requires !v.Stopped() && c.data.kind.WRITE? && !c.OutOfBuffers() && At(v, c.data.fd, AtWrite)
    ensures Handle(cfg, v, c, junk).faulted <==> |v.sq| + 1 > cfg.entries
  {
    var id := v.connections[c.data.fd];
    var v1 := v.(frames := v.frames[id := v.frames[id].(promise := SetWritten(ToSize(c.res))(v.frames[id].promise))]);
    assert Handle(cfg, v, c, junk) == FinishRequest(cfg, v1, id);
  }

  /** What the queue holds and what the unhandled operations will add to it: one entry each, and one more for the accept. */
  ghost predicate PassBounded(s: System) {
    s.phase.Handling? ==> |s.v.sq| + Total([], s.k, Busy) + Total([], s.k, Listener) <= s.phase.liveAtWake + 2
  }

  lemma HandleKeepsBound(cfg: Config, n: nat, s: System, s': System, junk: Promise)
    requires Inv(cfg, n, s) && CanStep(s, P.HandleNext) && ReadsServable(cfg, s, P.HandleNext)
    requires s' == Next(cfg, s, P.HandleNext, junk) && PassBounded(s) && !s'.v.Stopped()
    ensures PassBounded(s')
  {
    var c := s.k.cq[0];
    var r := HandleReply(cfg, n, s, s', junk);
    assert Sum(s.k.cq, OfCqe(Busy)) == CqeWeight(Busy, c) + Sum(s.k.cq[1..], OfCqe(Busy));
    assert Sum(s.k.cq, OfCqe(Listener)) == CqeWeight(Listener, c) + Sum(s.k.cq[1..], OfCqe(Listener));
  }

  lemma InternalKeepsWork(sq: seq<Sqe>, k: Kernel, t: KStep)
    requires Enabled(k, t) && Tagged(sq, k)
    ensures Total([], Apply(k, t), Busy) == Total([], k, Busy) && Total([], Apply(k, t), Listener) == Total([], k, Listener)
  {
    assert k.armed[t.i] in k.armed;
    StepTotal([], k, t, Busy);
    StepTotal([], k, t, Listener);
  }

  lemma StepKeepsBound(cfg: Config, n: nat, s: System, step: P.Step, s': System, junk: Promise)
    requires Inv(cfg, n, s) && CanStep(s, step) && ReadsServable(cfg, s, step) && s' == Next(cfg, s, step, junk)
    requires PassBounded(s) && !s'.v.Stopped()
    ensures PassBounded(s')
  {
    match step
    case Submit =>
    case Sleep =>
    case Wake =>
      assert Balanced(n, s.v.sq, s.k, s.v.connections.Keys, multiset{}, Busy);
      assert Balanced(n, s.v.sq, s.k, s.v.connections.Keys, multiset{}, Listener);
      assert |s.v.connections.Keys| == |s.v.connections|;
    case Internal(t) => InternalKeepsWork(s.v.sq, s.k, t);
    case HandleNext => HandleKeepsBound(cfg, n, s, s', junk);
  }

  lemma WorkLeft(s: System)
    requires s.k.cq != []
    ensures CqeWeight(Busy, s.k.cq[0]) <= Total([], s.k, Busy)
    ensures CqeWeight(Listener, s.k.cq[0]) <= Total([], s.k, Listener)
  {
    SumsAtLeast([], s.k, Busy);
    SumsAtLeast([], s.k, Listener);
    assert s.k.cq[0] in s.k.cq;
  }

  lemma BoundIsRoom(cfg: Config, s: System, step: P.Step)
    requires CanStep(s, step) && PassBounded(s)
    requires s.phase.Handling? ==> s.phase.liveAtWake + 2 <= cfg.entries
    ensures !Overfills(cfg, s, step)
  {
    if step.HandleNext? { WorkLeft(s); }
  }

  /** What holds of a run in which at most `l` connections are open at once. */
  ghost predicate Roomy(s: System, l: nat) {
    !s.v.faulted && (s.v.Stopped() || PassBounded(s)) && (s.phase.Handling? ==> s.phase.liveAtWake <= l)
  }

  lemma StepKeepsRoom(cfg: Config, n: nat, s: System, step: P.Step, s': System, junk: Promise, l: nat)
    requires Good(cfg, n, s) && CanStep(s, step) && ReadsServable(cfg, s, step) && s' == Next(cfg, s, step, junk)
    requires Roomy(s, l) && |s.v.connections| <= l && l + 2 <= cfg.entries
    ensures Roomy(s', l)
  {
    StepInv(cfg, n, s, step, s', junk);
    BoundIsRoom(cfg, s, step);
    if step.HandleNext? { FaultedIffFull(cfg, n, s, junk); }
    if !s'.v.Stopped() { StepKeepsBound(cfg, n, s, step, s', junk); }
  }

  /** With at most `l` connections at once and room for `l + 2` entries, `io_uring_get_sqe` never fails. */
  lemma WebQueueNeverOverfills(
      cfg: Config, n: nat, states: seq<System>, steps: seq<P.Step>, junk: seq<Promise>, l: nat, i: nat)
    requires Run(cfg, n, states, steps, junk) && i < |states|
    requires l + 2 <= cfg.entries && forall j :: 0 <= j <= i ==> |states[j].v.connections| <= l
    ensures !states[i].v.faulted
  {
    for j := 0 to i
      invariant Roomy(states[j], l)
    {
      RunInv(cfg, n, states, steps, junk, j);
      StepKeepsRoom(cfg, n, states[j], steps[j], states[j + 1], junk[j], l);
    }
  }
}
