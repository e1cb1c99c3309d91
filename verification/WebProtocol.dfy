/** The web server and the kernel as one system. Descriptors are closed and given out again, and still every connection
    is served from its own buffer, once. */
module WebProtocol {
  import opened Sums
  import opened Uring
  import opened WebServer
  import opened Accounts
  import opened Streams
  import P = EchoProtocol

  datatype System = System(v: Server, k: Kernel, phase: P.Phase)

  predicate CanStep(s: System, step: P.Step) {
    !s.v.Stopped() && P.Ready(s.v.sq, s.k, s.phase, step)
  }

  /** The response queued last on connection `fd`. */
  function Body(v: Server, fd: nat): Bytes {
    if fd in v.connections && v.IsSuspended(v.connections[fd]) then
      var log := v.frames[v.connections[fd]].log;
      if log != [] && log[|log| - 1].WriteQueued? then log[|log| - 1].body else []
    else []
  }

  /** The server writes to the shared buffers and closes sockets; a queued response is due instead of what was read. */
  function AfterHandle(k: Kernel, c: Cqe, v: Server, v': Server): Kernel {
    k.(bufs := v'.bufs,
    open := if |v'.closed| > |v.closed| then k.open - {v'.closed[|v.closed|]} else k.open,
    due := if c.data.kind.READ? && !v'.Stopped() then k.due[c.data.fd := Body(v', c.data.fd)] else k.due)
  }

  function Next(cfg: Config, s: System, step: P.Step, junk: Promise): System
    requires CanStep(s, step)
  {
    match step
    case Submit => s.(k := Issue(s.k, s.v.sq[0]), v := s.v.(sq := s.v.sq[1..]))
    case Wake => s.(phase := P.Handling(0, |s.v.connections|, |s.k.armed| + |s.k.cq|))
    case Internal(t) => var k' := Apply(s.k, t); s.(k := k', v := s.v.(bufs := k'.bufs))
    case HandleNext =>
      var c := s.k.cq[0];
      var v' := Handle(cfg, s.v, c, junk);
      System(v', AfterHandle(P.Reap(s.k), c, s.v, v'), s.phase.(count := s.phase.count + 1))
    case Sleep => s.(phase := P.Submitting)
  }

  /** A read handed to the server returned less than 2048 bytes and no error, and the response to them is defined. */
  predicate ReadsServable(cfg: Config, s: System, step: P.Step) {
    step.HandleNext? && s.k.cq != [] && s.k.cq[0].data.kind.READ? && !s.k.cq[0].OutOfBuffers() ==>
      var c := s.k.cq[0];
      0 <= c.res < MAX_MESSAGE_LEN &&
      (c.SelectedBuffer() < |s.v.bufs| && |s.v.bufs[c.SelectedBuffer()]| == MAX_MESSAGE_LEN ==>
         Servable(cfg, s.v.bufs, c.SelectedBuffer(), c.res))
  }

  ghost predicate Initial(cfg: Config, n: nat, s: System) {
    && cfg.entries > 0
    && s.v == Boot(cfg, s.k.bufs)
    && s.phase.Submitting?
    && s.k.armed == [] && s.k.cq == []
    && s.k.pool == BufferIds(n) && BuffersSized(n, s.k.bufs)
    && s.k.open == {} && s.k.due == map[] && s.k.trail == map[]
  }

  /** Any run of the server, whatever its reads return. */
  ghost predicate Trace(cfg: Config, n: nat, states: seq<System>, steps: seq<P.Step>, junk: seq<Promise>) {
    && |states| == |steps| + 1 && |junk| == |steps|
    && Initial(cfg, n, states[0])
    && forall i :: 0 <= i < |steps| ==>
         CanStep(states[i], steps[i]) && states[i + 1] == Next(cfg, states[i], steps[i], junk[i])
  }

  /** A run in which every read can be served. */
  ghost predicate Run(cfg: Config, n: nat, states: seq<System>, steps: seq<P.Step>, junk: seq<Promise>) {
    && Trace(cfg, n, states, steps, junk)
    && forall i :: 0 <= i < |steps| ==> ReadsServable(cfg, states[i], steps[i])
  }

  // ----- Frames, the entries they wait for, and what they have been through -----

  predicate At(v: Server, fd: nat, point: Point) {
    fd in v.connections && v.IsSuspended(v.connections[fd]) && v.frames[v.connections[fd]].point == point
  }

  predicate Writes(v: Server, fd: nat, bid: nat) {
    At(v, fd, AtWrite) && v.frames[v.connections[fd]].promise.info.bid == bid
  }

  predicate SqeServed(v: Server, e: Sqe) {
    (e.op.Recv? ==> At(v, e.op.fd, AtRead)) && (e.op.Send? ==> Writes(v, e.op.fd, e.op.bid))
  }

  predicate ArmedServed(v: Server, a: Armed) {
    (a.Receiving? ==> At(v, a.fd, AtRead)) && (a.Sending? ==> Writes(v, a.fd, a.bid))
  }

  predicate CqeServed(v: Server, c: Cqe) {
    (c.data.kind.READ? ==> At(v, c.data.fd, AtRead)) && (c.data.kind.WRITE? ==> Writes(v, c.data.fd, c.data.bid))
  }

  ghost predicate Served(v: Server, sq: seq<Sqe>, k: Kernel) {
    && (forall e :: e in sq ==> SqeServed(v, e))
    && (forall a :: a in k.armed ==> ArmedServed(v, a))
    && (forall c :: c in k.cq ==> CqeServed(v, c))
  }

  predicate Connected(v: Server, fd: nat)
    requires fd in v.connections
  {
    var id := v.connections[fd];
    && v.IsSuspended(id)
    && var f := v.frames[id]; f.fd == f.promise.info.fd == fd && (f.point.AtRead? || f.point.AtWrite?)
  }

  /** `body` is the response to the request in `content`. */
  predicate Answers(cfg: Config, body: Bytes, content: Bytes) {
    var r := cfg.respond(content);
    r.Some? && r.value.size <= |r.value.content| && body == r.value.content[..r.value.size]
  }

  /** The log of a connection that waits for the end of its write of `body` from buffer `bid`. */
  predicate Answered(cfg: Config, log: seq<Event>, bid: nat, body: Bytes) {
    && |log| == 3 && log[0] == ReadQueued
    && log[1].Received? && log[1].bid == bid && |log[1].content| == MAX_MESSAGE_LEN && '\0' in log[1].content
    && log[2] == WriteQueued(bid, body)
    && Answers(cfg, body, log[1].content)
  }

  /** The log of a finished connection: read, write, buffer returned, closed, each once and all of one buffer. */
  predicate Finished(cfg: Config, log: seq<Event>, fd: nat) {
    && |log| == 5 && log[2].WriteQueued?
    && Answered(cfg, log[..3], log[2].bid, log[2].body)
    && log[3] == BufferReturned(log[2].bid)
    && log[4] == Closed(fd)
  }

  /** The map and the frames agree: every entry leads to a suspended frame, every suspended frame has its entry, and a
      frame is destroyed once or is suspended. */
  ghost predicate HandlesOk(v: Server) {
    && (forall fd :: fd in v.connections ==> Connected(v, fd))
    && (forall id :: 0 <= id < |v.frames| && v.frames[id].Suspended? ==>
          v.frames[id].fd in v.connections && v.connections[v.frames[id].fd] == id)
    && (forall id :: multiset(v.destroyed)[id] == Bit(0 <= id < |v.frames| && v.frames[id].Destroyed?))
  }

  ghost predicate LogsOk(cfg: Config, v: Server) {
    forall id :: 0 <= id < |v.frames| && v.frames[id].Destroyed? ==> Finished(cfg, v.frames[id].log, v.frames[id].fd)
  }

  ghost predicate FramesOk(cfg: Config, v: Server) { HandlesOk(v) && LogsOk(cfg, v) }

  /** What a live connection has been through agrees with its streams. */
  predicate SessionOk(cfg: Config, v: Server, k: Kernel, fd: nat)
    requires fd in v.connections && Connected(v, fd)
  {
    var f := v.frames[v.connections[fd]];
    if f.point.AtRead? then f.log == [ReadQueued] && k.Trail(fd) == []
    else Answered(cfg, f.log, f.promise.info.bid, k.Due(fd))
  }

  ghost predicate SessionsOk(cfg: Config, v: Server, k: Kernel)
    requires FramesOk(cfg, v)
  {
    forall fd :: fd in v.connections ==> SessionOk(cfg, v, k, fd)
  }

  /** A descriptor announced and not yet adopted has carried nothing. */
  ghost predicate NewAreClean(k: Kernel) {
    forall c :: c in k.cq && P.Opens(c) ==> k.Trail(c.res) == []
  }

  ghost predicate Inv(cfg: Config, n: nat, s: System) {
    && Accounted(n, s.v.sq, s.k, s.v.connections.Keys, multiset{})
    && Sized(n, s.v.sq, s.k) && s.v.bufs == s.k.bufs
    && StreamsSettled(s.v.sq, s.k, s.v.connections.Keys)
    && Served(s.v, s.v.sq, s.k)
    && FramesOk(cfg, s.v) && SessionsOk(cfg, s.v, s.k)
    && NewAreClean(s.k)
  }

  ghost predicate Good(cfg: Config, n: nat, s: System) {
    !s.v.misused && (s.v.Stopped() || Inv(cfg, n, s))
  }

  lemma InitialInv(cfg: Config, n: nat, s: System)
    requires Initial(cfg, n, s)
    ensures Inv(cfg, n, s)
  {
    assert s.v.sq == [AcceptSqe(cfg)] && s.v.connections.Keys == {};
    InitiallyAccounted(cfg, n, s.k);
    assert forall fd :: Settled(s.k, fd, []);
  }

  lemma InitiallyAccounted(cfg: Config, n: nat, k: Kernel)
    requires k.armed == [] && k.cq == [] && k.pool == BufferIds(n) && k.open == {}
    ensures Accounted(n, [AcceptSqe(cfg)], k, {}, multiset{})
  {
    forall w ensures Balanced(n, [AcceptSqe(cfg)], k, {}, multiset{}, w) {
      SumFew(AcceptSqe(cfg), AcceptSqe(cfg), OfSqe(w));
    }
  }

  lemma SameFrames(cfg: Config, v: Server, v': Server)
    requires v'.connections == v.connections && v'.frames == v.frames && v'.destroyed == v.destroyed
    ensures FramesOk(cfg, v) ==> FramesOk(cfg, v')
    ensures forall e {:trigger SqeServed(v', e)} :: SqeServed(v', e) == SqeServed(v, e)
    ensures forall a {:trigger ArmedServed(v', a)} :: ArmedServed(v', a) == ArmedServed(v, a)
    ensures forall c {:trigger CqeServed(v', c)} :: CqeServed(v', c) == CqeServed(v, c)
  {
    assert forall fd :: fd in v.connections ==> Connected(v', fd) == Connected(v, fd);
  }

  // ----- Submission and kernel steps -----

  lemma SameSession(cfg: Config, v: Server, v': Server, k: Kernel, k': Kernel, fd: nat)
    requires v'.connections == v.connections && v'.frames == v.frames
    requires fd in v.connections && Connected(v, fd) && SessionOk(cfg, v, k, fd)
    requires k'.Due(fd) == k.Due(fd) && k'.Trail(fd) == k.Trail(fd)
    ensures Connected(v', fd) && SessionOk(cfg, v', k', fd)
  {
  }

  lemma SubmitKeepsServed(v: Server, sq: seq<Sqe>, k: Kernel)
    requires sq != [] && Tagged(sq, k) && Served(v, sq, k)
    ensures Served(v, sq[1..], Issue(k, sq[0]))
  {
    assert sq[0] in sq && SqeServed(v, sq[0]) && TaggedSqe(sq[0]);
  }

  lemma SubmitInv(cfg: Config, n: nat, s: System, junk: Promise)
    requires Inv(cfg, n, s) && CanStep(s, P.Submit)
    ensures Inv(cfg, n, Next(cfg, s, P.Submit, junk))
  {
    var s' := Next(cfg, s, P.Submit, junk);
    IssueKeepsAccounts(n, s.v.sq, s.k, s.v.connections.Keys, multiset{});
    IssueKeepsSizes(n, s.v.sq, s.k);
    IssueKeepsStreams(s.v.sq, s.k, s.v.connections.Keys);
    SubmitKeepsServed(s.v, s.v.sq, s.k);
    SameFrames(cfg, s.v, s'.v);
    forall fd | fd in s'.v.connections ensures SessionOk(cfg, s'.v, s'.k, fd) {
      SameSession(cfg, s.v, s'.v, s.k, s'.k, fd);
    }
    assert forall c :: c in s'.k.cq && P.Opens(c) ==> c in s.k.cq by {
      assert s.v.sq[0] in s.v.sq;
    }
  }

  /** A descriptor that is given out was not open, so it is neither live nor announced. */
  lemma NewDescriptor(n: nat, sq: seq<Sqe>, k: Kernel, live: set<nat>, fd: nat)
    requires Accounted(n, sq, k, live, multiset{}) && fd !in k.open
    ensures fd !in live && forall c :: c in k.cq && P.Opens(c) ==> c.res != fd
  {
    assert Balanced(n, sq, k, live, multiset{}, Fresh(fd));
    SumsAtLeast(sq, k, Fresh(fd));
    forall c | c in k.cq && P.Opens(c) ensures c.res != fd {
      assert CqeWeight(Fresh(c.res), c) == 1;
    }
  }

  /** An announced descriptor is not live. */
  lemma AnnouncedIsNotLive(n: nat, sq: seq<Sqe>, k: Kernel, live: set<nat>, c: Cqe)
    requires Accounted(n, sq, k, live, multiset{}) && c in k.cq && P.Opens(c)
    ensures c.res !in live
  {
    assert Balanced(n, sq, k, live, multiset{}, Fresh(c.res));
    SumsAtLeast(sq, k, Fresh(c.res));
    assert CqeWeight(Fresh(c.res), c) == 1;
  }

  lemma InternalKeepsSession(cfg: Config, v: Server, k: Kernel, t: KStep, fd: nat)
    requires Enabled(k, t) && ArmedServed(v, k.armed[t.i]) && (t.AcceptDone? ==> t.fd != fd)
    requires fd in v.connections && Connected(v, fd) && SessionOk(cfg, v, k, fd)
    ensures SessionOk(cfg, v, Apply(k, t), fd)
  {
  }

  lemma InternalKeepsClean(n: nat, sq: seq<Sqe>, k: Kernel, live: set<nat>, t: KStep)
    requires Enabled(k, t) && Accounted(n, sq, k, live, multiset{}) && NewAreClean(k)
    ensures NewAreClean(Apply(k, t))
  {
    var a, k' := k.armed[t.i], Apply(k, t);
    assert a in k.armed && TaggedArmed(a);
    if !a.Accepting? { ArmedIsLive(n, sq, k, live, multiset{}, a); }
    if t.AcceptDone? { NewDescriptor(n, sq, k, live, t.fd); }
    forall c | c in k'.cq && P.Opens(c) ensures k'.Trail(c.res) == [] {
      if c in k.cq { AnnouncedIsNotLive(n, sq, k, live, c); }
    }
  }

  lemma InternalInv(cfg: Config, n: nat, s: System, t: KStep, junk: Promise)
    requires Inv(cfg, n, s) && CanStep(s, P.Internal(t))
    ensures Inv(cfg, n, Next(cfg, s, P.Internal(t), junk))
  {
    var s', live := Next(cfg, s, P.Internal(t), junk), s.v.connections.Keys;
    StepKeepsAccounts(n, s.v.sq, s.k, live, multiset{}, t);
    StepKeepsSizes(n, s.v.sq, s.k, t);
    StepKeepsStreams(n, s.v.sq, s.k, live, multiset{}, t);
    InternalKeepsClean(n, s.v.sq, s.k, live, t);
    InternalKeepsServed(s.v, s.v.sq, s.k, t);
    SameFrames(cfg, s.v, s'.v);
    assert s.k.armed[t.i] in s.k.armed;
    if t.AcceptDone? { NewDescriptor(n, s.v.sq, s.k, live, t.fd); }
    forall fd | fd in s'.v.connections ensures SessionOk(cfg, s'.v, s'.k, fd) {
      InternalKeepsSession(cfg, s.v, s.k, t, fd);
      SameSession(cfg, s.v, s'.v, s'.k, s'.k, fd);
    }
  }

  lemma InternalKeepsServed(v: Server, sq: seq<Sqe>, k: Kernel, t: KStep)
    requires Enabled(k, t) && Tagged(sq, k) && Served(v, sq, k)
    ensures Served(v, sq, Apply(k, t))
  {
    var a := k.armed[t.i];
    assert a in k.armed && ArmedServed(v, a) && TaggedArmed(a);
    if StaysArmed(t) { UpdatedMembers(k.armed, t.i, Rearmed(k, t)); }
  }

  // ----- What a completion does to the server -----

  /** `get_buffer_id` recovers the buffer from any pointer into it. */
  lemma BufferIdOfPointer(cfg: Config, bid: nat, offset: nat)
    requires offset < MAX_MESSAGE_LEN
    ensures BufferId(cfg, BufferPointer(cfg, bid) + offset) == bid
  {
  }

  function SendSqe(fd: nat, bid: nat, size: nat): Sqe { Sqe(Send(fd, bid, size), ConnInfo(fd, WRITE, bid)) }

  function ProvideSqe(fd: nat, bid: nat): Sqe { Sqe(Provide(bid), ConnInfo(fd, PROV_BUF, bid)) }

  function RecvSqe(fd: nat, bid: nat): Sqe { Sqe(Recv(fd, MAX_MESSAGE_LEN), ConnInfo(fd, READ, bid)) }

  lemma ReadDelivered(cfg: Config, v: Server, c: Cqe, junk: Promise)
    requires !v.Stopped() && c.data.kind.READ? && At(v, c.data.fd, AtRead) && Connected(v, c.data.fd)
    requires 0 <= c.res < MAX_MESSAGE_LEN && Servable(cfg, v.bufs, c.SelectedBuffer(), c.res)
    ensures var v', fd, bid := Handle(cfg, v, c, junk), c.data.fd, c.SelectedBuffer();
            var content := Terminated(v.bufs[bid], c.res);
            var r, id := cfg.respond(content).value, v.connections[fd];
            && !v'.misused
            && (!v'.Stopped() ==> v' == v.(
                  sq := v.sq + [SendSqe(fd, bid, r.size)],
                  bufs := v.bufs[bid := r.content],
                  frames := v.frames[id := Suspended(AtWrite, fd, Promise(ConnInfo(fd, WRITE, bid), c.res),
                    v.frames[id].log + [Received(bid, content), WriteQueued(bid, r.content[..r.size])])]))
  {
    var id, bid := v.connections[c.data.fd], c.SelectedBuffer();
    var v1 := v.(frames := v.frames[id := v.frames[id].(promise := SetRead(bid, c.res)(v.frames[id].promise))]);
    BufferIdOfPointer(cfg, bid, 0);
    var v' := Handle(cfg, v, c, junk);
    assert v' == AwaitWrite(cfg, v1, id);
    if !v'.Stopped() { assert v'.frames == v.frames[id := v'.frames[id]]; }
  }

  lemma WriteDelivered(cfg: Config, v: Server, c: Cqe, junk: Promise)
    requires !v.Stopped() && c.data.kind.WRITE? && !c.OutOfBuffers() && At(v, c.data.fd, AtWrite) && Connected(v, c.data.fd)
    ensures var v', fd, id := Handle(cfg, v, c, junk), c.data.fd, v.connections[c.data.fd];
            var bid := v.frames[id].promise.info.bid;
            && !v'.misused
            && (!v'.Stopped() ==> v' == v.(
                  sq := v.sq + [ProvideSqe(fd, bid)],
                  connections := v.connections - {fd}, closed := v.closed + [fd], destroyed := v.destroyed + [id],
                  frames := v.frames[id := Destroyed(fd, v.frames[id].log + [BufferReturned(bid), Closed(fd)])]))
  {
    var id := v.connections[c.data.fd];
    var v1 := v.(frames := v.frames[id := v.frames[id].(promise := SetWritten(ToSize(c.res))(v.frames[id].promise))]);
    var v' := Handle(cfg, v, c, junk);
    assert v' == FinishRequest(cfg, v1, id);
    if !v'.Stopped() { assert v'.frames == v.frames[id := v'.frames[id]]; }
  }

  lemma AcceptDelivered(cfg: Config, v: Server, c: Cqe, junk: Promise)
    requires !v.Stopped() && c.data.kind.ACCEPT? && !c.OutOfBuffers() && (c.res >= 0 ==> c.res !in v.connections)
    ensures var v' := Handle(cfg, v, c, junk);
            && !v'.misused
            && (!v'.Stopped() && c.res >= 0 ==> v' == v.(
                  sq := v.sq + [RecvSqe(c.res, junk.info.bid), AcceptSqe(cfg)],
                  connections := v.connections[c.res := |v.frames|],
                  frames := v.frames + [
                    Suspended(AtRead, c.res, Promise(ConnInfo(c.res, READ, junk.info.bid), junk.res), [ReadQueued])]))
            && (!v'.Stopped() && c.res < 0 ==> v' == v.(sq := v.sq + [AcceptSqe(cfg)]))
  {
    if c.res >= 0 {
      var fd, id := c.res, |v.frames|;
      var v0 := Emplace(v, fd, junk);
      var v1 := v0.(frames := v0.frames[id := v0.frames[id].(promise := SetFd(fd)(junk))]);
      var v2 := Deliver(cfg, v0, fd, SetFd(fd));
      assert v0.connections[fd] == id && v0.frames[id] == Suspended(AtStart, fd, junk, []);
      assert v2 == AwaitRead(cfg, v1, id);
      assert [] + [ReadQueued] == [ReadQueued];
      if !v2.Stopped() { assert v2.frames == v.frames + [v2.frames[id]]; }
      assert v.sq + [RecvSqe(fd, junk.info.bid)] + [AcceptSqe(cfg)] == v.sq + [RecvSqe(fd, junk.info.bid), AcceptSqe(cfg)];
    }
  }

  /** No in-flight entry weighs anything under `w`. */
  ghost predicate NoOther(sq: seq<Sqe>, k: Kernel, w: Weight) {
    && (forall e :: e in sq ==> SqeWeight(w, e) == 0)
    && (forall a :: a in k.armed ==> ArmedWeight(w, a) == 0)
    && (forall c :: c in k.cq ==> CqeWeight(w, c) == 0)
  }

  /** The completion being handled is the only entry of its connection and the only holder of its buffer. */
  lemma HandledIsAlone(n: nat, sq: seq<Sqe>, k: Kernel, live: set<nat>, w: Weight)
    requires Accounted(n, sq, k, live, multiset{}) && k.cq != []
    requires (w.Connection? || w.Buffer?) && CqeWeight(w, k.cq[0]) == 1
    ensures NoOther(sq, P.Reap(k), w)
    ensures w.Buffer? ==> w.bid < n
    ensures w.Connection? ==> w.fd in live
  {
    assert Balanced(n, sq, k, live, multiset{}, w);
    SumsAtLeast(sq, P.Reap(k), w);
    assert Sum(k.cq, OfCqe(w)) == CqeWeight(w, k.cq[0]) + Sum(k.cq[1..], OfCqe(w));
  }

  /** The frames of all connections but `fd` are as they were. */
  ghost predicate ChangesOnlyFrame(v: Server, v': Server, fd: nat) {
    forall g :: g in v.connections && g != fd && v.IsSuspended(v.connections[g]) ==>
      && g in v'.connections && v'.connections[g] == v.connections[g]
      && v'.IsSuspended(v.connections[g]) && v'.frames[v.connections[g]] == v.frames[v.connections[g]]
  }

  lemma OthersServed(v: Server, v': Server, sq: seq<Sqe>, k: Kernel, k': Kernel, fd: nat)
    requires ChangesOnlyFrame(v, v', fd) && NoOther(sq, k, Connection(fd)) && Served(v, sq, k)
    requires k'.armed == k.armed && k'.cq == k.cq
    ensures Served(v', sq, k')
  {
  }

  /** Handling keeps the sessions of all other connections. */
  lemma OtherSession(cfg: Config, v: Server, v': Server, k: Kernel, k': Kernel, fd: nat, g: nat)
    requires ChangesOnlyFrame(v, v', fd) && g != fd
    requires g in v.connections && Connected(v, g) && SessionOk(cfg, v, k, g)
    requires k'.Due(g) == k.Due(g) && k'.Trail(g) == k.Trail(g)
    ensures g in v'.connections && Connected(v', g) && SessionOk(cfg, v', k', g)
  {
  }

  // ----- A read -----

  /** The state of the kernel and the server once the response to a read is queued. */
  ghost predicate ReadEffect(cfg: Config, v: Server, k: Kernel, c: Cqe, v': Server, k': Kernel) {
    var fd, bid := c.data.fd, c.SelectedBuffer();
    && c.data.kind.READ? && At(v, fd, AtRead) && Connected(v, fd)
    && 0 <= c.res < MAX_MESSAGE_LEN && Servable(cfg, v.bufs, bid, c.res) && v.bufs == k.bufs
    && var content := Terminated(v.bufs[bid], c.res);
       var r, id := cfg.respond(content).value, v.connections[fd];
       && v' == v.(
            sq := v.sq + [SendSqe(fd, bid, r.size)],
            bufs := v.bufs[bid := r.content],
            frames := v.frames[id := Suspended(AtWrite, fd, Promise(ConnInfo(fd, WRITE, bid), c.res),
              v.frames[id].log + [Received(bid, content), WriteQueued(bid, r.content[..r.size])])])
       && k' == k.(bufs := v'.bufs, due := k.due[fd := r.content[..r.size]])
  }

  lemma ReadKeepsAccounts(
      cfg: Config, n: nat, v: Server, k: Kernel, v': Server, k': Kernel)
    requires k.cq != [] && !k.cq[0].OutOfBuffers() && ReadEffect(cfg, v, P.Reap(k), k.cq[0], v', k')
    requires Accounted(n, v.sq, k, v.connections.Keys, multiset{}) && Sized(n, v.sq, k)
    ensures Accounted(n, v'.sq, k', v'.connections.Keys, multiset{}) && Sized(n, v'.sq, k')
  {
    var c := k.cq[0];
    var e := v'.sq[|v.sq|];
    assert v'.sq == v.sq + [e] && v'.connections == v.connections;
    forall w ensures Balanced(n, v'.sq, k', v.connections.Keys, multiset{}, w) {
      assert Balanced(n, v.sq, k, v.connections.Keys, multiset{}, w);
      SumPush(v.sq, e, OfSqe(w));
      assert SqeWeight(w, e) == CqeWeight(w, c);
      assert Sum(k.cq, OfCqe(w)) == CqeWeight(w, c) + Sum(k.cq[1..], OfCqe(w));
    }
  }

  lemma ReadKeepsStreams(cfg: Config, n: nat, v: Server, k: Kernel, c: Cqe, v': Server, k': Kernel)
    requires ReadEffect(cfg, v, k, c, v', k') && StreamsSettled(v.sq, k, v.connections.Keys)
    requires NoOther(v.sq, k, Connection(c.data.fd)) && NoOther(v.sq, k, Buffer(c.SelectedBuffer()))
    requires k.Trail(c.data.fd) == []
    ensures StreamsSettled(v'.sq, k', v'.connections.Keys)
  {
    var fd, bid := c.data.fd, c.SelectedBuffer();
    FrameOthers(k, k', fd, bid);
    forall e | e in v'.sq ensures SqeSettled(k', e) {
      if e in v.sq { assert SqeSettled(k, e); }
    }
    forall g | g !in v'.connections.Keys ensures Settled(k', g, []) {
      assert Settled(k, g, []);
    }
  }

  lemma ReadKeepsFrames(cfg: Config, v: Server, k: Kernel, c: Cqe, v': Server, k': Kernel)
    requires ReadEffect(cfg, v, k, c, v', k') && FramesOk(cfg, v)
    ensures FramesOk(cfg, v') && ChangesOnlyFrame(v, v', c.data.fd) && Writes(v', c.data.fd, c.SelectedBuffer())
  {
    forall fd | fd in v'.connections ensures Connected(v', fd) {
      assert Connected(v, fd);
    }
    assert forall i :: multiset(v'.destroyed)[i] == multiset(v.destroyed)[i];
  }

  lemma ReadKeepsSessions(cfg: Config, v: Server, k: Kernel, c: Cqe, v': Server, k': Kernel)
    requires ReadEffect(cfg, v, k, c, v', k') && FramesOk(cfg, v) && SessionsOk(cfg, v, k)
    requires |v.bufs[c.SelectedBuffer()]| == MAX_MESSAGE_LEN
    ensures FramesOk(cfg, v') && SessionsOk(cfg, v', k')
  {
    ReadKeepsFrames(cfg, v, k, c, v', k');
    assert Terminated(v.bufs[c.SelectedBuffer()], c.res)[c.res] == '\0';
    forall g | g in v'.connections ensures SessionOk(cfg, v', k', g) {
      assert SessionOk(cfg, v, k, g);
      if g != c.data.fd { OtherSession(cfg, v, v', k, k', c.data.fd, g); }
    }
  }

  /** Taking the head off the completion queue disturbs nothing that is said entry by entry. */
  lemma ReapKeeps(cfg: Config, n: nat, s: System)
    requires Inv(cfg, n, s) && s.k.cq != []
    ensures var k := P.Reap(s.k);
            && StreamsSettled(s.v.sq, k, s.v.connections.Keys) && Served(s.v, s.v.sq, k)
            && SessionsOk(cfg, s.v, k) && NewAreClean(k)
  {
    var k := P.Reap(s.k);
    StreamsFrame(s.k, k);
    forall g | g in s.v.connections ensures SessionOk(cfg, s.v, k, g) { SameSession(cfg, s.v, s.v, s.k, k, g); }
  }

  lemma SameAreClean(k: Kernel, k': Kernel)
    requires k'.cq == k.cq && k'.trail == k.trail && NewAreClean(k)
    ensures NewAreClean(k')
  {
    forall c | c in k'.cq && P.Opens(c) ensures k'.Trail(c.res) == [] {
      assert k.Trail(c.res) == [];
    }
  }

  lemma ReadKeepsServed(cfg: Config, v: Server, k: Kernel, c: Cqe, v': Server, k': Kernel)
    requires ReadEffect(cfg, v, k, c, v', k') && FramesOk(cfg, v)
    requires NoOther(v.sq, k, Connection(c.data.fd)) && Served(v, v.sq, k)
    ensures Served(v', v'.sq, k')
  {
    ReadKeepsFrames(cfg, v, k, c, v', k');
    OthersServed(v, v', v.sq, k, k', c.data.fd);
  }

  lemma ReadKeepsEntries(cfg: Config, n: nat, s: System, s': System)
    requires Inv(cfg, n, s) && s.k.cq != [] && !s.k.cq[0].OutOfBuffers()
    requires ReadEffect(cfg, s.v, P.Reap(s.k), s.k.cq[0], s'.v, s'.k)
    ensures StreamsSettled(s'.v.sq, s'.k, s'.v.connections.Keys) && Served(s'.v, s'.v.sq, s'.k)
  {
    var c, v, k := s.k.cq[0], s.v, P.Reap(s.k);
    ReapKeeps(cfg, n, s);
    HandledIsAlone(n, v.sq, s.k, v.connections.Keys, Connection(c.data.fd));
    HandledIsAlone(n, v.sq, s.k, v.connections.Keys, Buffer(c.SelectedBuffer()));
    assert SessionOk(cfg, v, k, c.data.fd);
    ReadKeepsStreams(cfg, n, v, k, c, s'.v, s'.k);
    ReadKeepsServed(cfg, v, k, c, s'.v, s'.k);
  }

  lemma ReadEffectInv(cfg: Config, n: nat, s: System, s': System)
    requires Inv(cfg, n, s) && s.k.cq != [] && !s.k.cq[0].OutOfBuffers()
    requires ReadEffect(cfg, s.v, P.Reap(s.k), s.k.cq[0], s'.v, s'.k)
    ensures Inv(cfg, n, s')
  {
    var c, v := s.k.cq[0], s.v;
    ReapKeeps(cfg, n, s);
    HandledIsAlone(n, v.sq, s.k, v.connections.Keys, Buffer(c.SelectedBuffer()));
    ReadKeepsAccounts(cfg, n, v, s.k, s'.v, s'.k);
    ReadKeepsSessions(cfg, v, P.Reap(s.k), c, s'.v, s'.k);
    ReadKeepsEntries(cfg, n, s, s');
    SameAreClean(P.Reap(s.k), s'.k);
  }

  /** The response queued is what is due from then on. */
  lemma DueAfterRead(k: Kernel, c: Cqe, v: Server, v': Server, body: Bytes)
    requires c.data.kind.READ? && !v'.Stopped() && v'.closed == v.closed
    requires c.data.fd in v'.connections && v'.IsSuspended(v'.connections[c.data.fd])
    requires var log := v'.frames[v'.connections[c.data.fd]].log;
             log != [] && log[|log| - 1].WriteQueued? && log[|log| - 1].body == body
    ensures AfterHandle(k, c, v, v') == k.(bufs := v'.bufs, due := k.due[c.data.fd := body])
  {
  }

  lemma ReadIsServable(cfg: Config, n: nat, s: System)
    requires Inv(cfg, n, s) && CanStep(s, P.HandleNext) && ReadsServable(cfg, s, P.HandleNext)
    requires s.k.cq[0].data.kind.READ? && !s.k.cq[0].OutOfBuffers()
    ensures var c, v := s.k.cq[0], s.v;
            && At(v, c.data.fd, AtRead) && Connected(v, c.data.fd) && 0 <= c.res < MAX_MESSAGE_LEN
            && Servable(cfg, v.bufs, c.SelectedBuffer(), c.res) && v.bufs == s.k.bufs
  {
    var c, v := s.k.cq[0], s.v;
    assert c in s.k.cq && CqeServed(v, c) && Connected(v, c.data.fd);
    HandledIsAlone(n, v.sq, s.k, v.connections.Keys, Buffer(c.SelectedBuffer()));
  }

  /** A read that the server goes on from has its effect. */
  lemma ReadHasEffect(cfg: Config, n: nat, s: System, junk: Promise)
    requires Inv(cfg, n, s) && CanStep(s, P.HandleNext) && ReadsServable(cfg, s, P.HandleNext)
    requires s.k.cq[0].data.kind.READ? && !s.k.cq[0].OutOfBuffers()
    ensures var s' := Next(cfg, s, P.HandleNext, junk);
            !s'.v.misused && (s'.v.Stopped() || ReadEffect(cfg, s.v, P.Reap(s.k), s.k.cq[0], s'.v, s'.k))
  {
    var c, v, v' := s.k.cq[0], s.v, Handle(cfg, s.v, s.k.cq[0], junk);
    ReadIsServable(cfg, n, s);
    ReadDelivered(cfg, v, c, junk);
    if !v'.Stopped() {
      var r := cfg.respond(Terminated(v.bufs[c.SelectedBuffer()], c.res)).value;
      DueAfterRead(P.Reap(s.k), c, v, v', r.content[..r.size]);
    }
  }

  lemma ReadInv(cfg: Config, n: nat, s: System, junk: Promise)
    requires Inv(cfg, n, s) && CanStep(s, P.HandleNext) && ReadsServable(cfg, s, P.HandleNext)
    requires s.k.cq[0].data.kind.READ? && !s.k.cq[0].OutOfBuffers()
    ensures Good(cfg, n, Next(cfg, s, P.HandleNext, junk))
  {
    var s' := Next(cfg, s, P.HandleNext, junk);
    ReadHasEffect(cfg, n, s, junk);
    if !s'.v.Stopped() { ReadEffectInv(cfg, n, s, s'); }
  }

  // ----- A write -----

  /** The buffer is on its way back, and the descriptor is closed and its frame gone. */
  ghost predicate WriteEffect(v: Server, k: Kernel, c: Cqe, v': Server, k': Kernel) {
    var fd := c.data.fd;
    && c.data.kind.WRITE? && Writes(v, fd, c.data.bid) && Connected(v, fd)
    && var id := v.connections[fd];
       && v' == v.(
            sq := v.sq + [ProvideSqe(fd, c.data.bid)],
            connections := v.connections - {fd}, closed := v.closed + [fd], destroyed := v.destroyed + [id],
            frames := v.frames[id := Destroyed(fd, v.frames[id].log + [BufferReturned(c.data.bid), Closed(fd)])])
       && k' == k.(open := k.open - {fd})
  }

  lemma WriteKeepsBalance(
      n: nat, sq: seq<Sqe>, k: Kernel, live: set<nat>, fd: nat, bid: nat, w: Weight)
    requires k.cq != [] && k.cq[0].data == ConnInfo(fd, WRITE, bid) && fd in live
    requires Balanced(n, sq, k, live, multiset{}, w) && Balanced(n, sq, k, live, multiset{}, Fresh(fd))
    ensures Balanced(n, sq + [ProvideSqe(fd, bid)], P.Reap(k).(open := k.open - {fd}), live - {fd}, multiset{}, w)
  {
    var c, e := k.cq[0], ProvideSqe(fd, bid);
    SumsAtLeast(sq, k, Fresh(fd));
    SumPush(sq, e, OfSqe(w));
    assert SqeWeight(w, e) == CqeWeight(w, c) - Bit(w == Connection(fd) || w.Busy? || w.Demand?);
    assert Sum(k.cq, OfCqe(w)) == CqeWeight(w, c) + Sum(k.cq[1..], OfCqe(w));
  }

  lemma WriteKeepsAccounts(n: nat, v: Server, k: Kernel, v': Server, k': Kernel)
    requires k.cq != [] && WriteEffect(v, P.Reap(k), k.cq[0], v', k')
    requires Accounted(n, v.sq, k, v.connections.Keys, multiset{}) && Sized(n, v.sq, k)
    ensures Accounted(n, v'.sq, k', v'.connections.Keys, multiset{}) && Sized(n, v'.sq, k')
  {
    var c, live := k.cq[0], v.connections.Keys;
    assert v'.connections.Keys == live - {c.data.fd};
    forall w ensures Balanced(n, v'.sq, k', live - {c.data.fd}, multiset{}, w) {
      assert Balanced(n, v.sq, k, live, multiset{}, w);
      assert Balanced(n, v.sq, k, live, multiset{}, Fresh(c.data.fd));
      WriteKeepsBalance(n, v.sq, k, live, c.data.fd, c.data.bid, w);
    }
  }

  lemma WriteKeepsStreams(v: Server, k: Kernel, c: Cqe, v': Server, k': Kernel)
    requires WriteEffect(v, k, c, v', k') && StreamsSettled(v.sq, k, v.connections.Keys) && CqeSettled(k, c)
    ensures StreamsSettled(v'.sq, k', v'.connections.Keys)
  {
    StreamsFrame(k, k');
    forall e | e in v'.sq ensures SqeSettled(k', e) {
      if e in v.sq { assert SqeSettled(k, e); }
    }
  }

  lemma FinishedLog(cfg: Config, log: seq<Event>, bid: nat, body: Bytes, fd: nat)
    requires Answered(cfg, log, bid, body)
    ensures Finished(cfg, log + [BufferReturned(bid), Closed(fd)], fd)
  {
    assert (log + [BufferReturned(bid), Closed(fd)])[..3] == log;
  }

  lemma WriteKeepsHandles(v: Server, k: Kernel, c: Cqe, v': Server, k': Kernel)
    requires WriteEffect(v, k, c, v', k') && HandlesOk(v)
    ensures HandlesOk(v') && ChangesOnlyFrame(v, v', c.data.fd)
  {
    var fd := c.data.fd;
    var id := v.connections[fd];
    forall g | g in v.connections && g != fd ensures Connected(v, g) && v.connections[g] != id {
      assert Connected(v, g);
    }
    forall g | g in v'.connections ensures Connected(v', g) {
      assert Connected(v, g);
    }
    assert forall i :: multiset(v'.destroyed)[i] == multiset(v.destroyed)[i] + if i == id then 1 else 0;
  }

  lemma WriteKeepsLogs(cfg: Config, v: Server, k: Kernel, c: Cqe, v': Server, k': Kernel)
    requires WriteEffect(v, k, c, v', k') && LogsOk(cfg, v) && SessionOk(cfg, v, k, c.data.fd)
    ensures LogsOk(cfg, v')
  {
    var id := v.connections[c.data.fd];
    FinishedLog(cfg, v.frames[id].log, c.data.bid, k.Due(c.data.fd), c.data.fd);
    forall i | 0 <= i < |v'.frames| && v'.frames[i].Destroyed? ensures Finished(cfg, v'.frames[i].log, v'.frames[i].fd) {
      if i != id { assert v'.frames[i] == v.frames[i]; }
    }
  }

  lemma WriteKeepsFrames(cfg: Config, v: Server, k: Kernel, c: Cqe, v': Server, k': Kernel)
    requires WriteEffect(v, k, c, v', k') && FramesOk(cfg, v) && SessionsOk(cfg, v, k)
    ensures FramesOk(cfg, v') && ChangesOnlyFrame(v, v', c.data.fd)
  {
    assert SessionOk(cfg, v, k, c.data.fd);
    WriteKeepsHandles(v, k, c, v', k');
    WriteKeepsLogs(cfg, v, k, c, v', k');
  }

  lemma WriteKeepsSessions(cfg: Config, v: Server, k: Kernel, c: Cqe, v': Server, k': Kernel)
    requires WriteEffect(v, k, c, v', k') && FramesOk(cfg, v) && SessionsOk(cfg, v, k)
    ensures FramesOk(cfg, v') && SessionsOk(cfg, v', k')
  {
    WriteKeepsFrames(cfg, v, k, c, v', k');
    forall g | g in v'.connections ensures SessionOk(cfg, v', k', g) {
      assert SessionOk(cfg, v, k, g);
      OtherSession(cfg, v, v', k, k', c.data.fd, g);
    }
  }

  lemma WriteKeepsEntries(cfg: Config, n: nat, s: System, s': System)
    requires Inv(cfg, n, s) && s.k.cq != [] && WriteEffect(s.v, P.Reap(s.k), s.k.cq[0], s'.v, s'.k)
    ensures StreamsSettled(s'.v.sq, s'.k, s'.v.connections.Keys)
  {
    var c, v, k := s.k.cq[0], s.v, P.Reap(s.k);
    ReapKeeps(cfg, n, s);
    StreamsFrame(s.k, k);
    assert c in s.k.cq && CqeSettled(s.k, c);
    WriteKeepsStreams(v, k, c, s'.v, s'.k);
  }

  lemma WriteKeepsServed(n: nat, v: Server, k: Kernel, v': Server, k': Kernel)
    requires k.cq != [] && Accounted(n, v.sq, k, v.connections.Keys, multiset{})
    requires Served(v, v.sq, P.Reap(k)) && HandlesOk(v) && WriteEffect(v, P.Reap(k), k.cq[0], v', k')
    ensures Served(v', v'.sq, k')
  {
    HandledIsAlone(n, v.sq, k, v.connections.Keys, Connection(k.cq[0].data.fd));
    WriteKeepsHandles(v, P.Reap(k), k.cq[0], v', k');
    OthersServed(v, v', v.sq, P.Reap(k), k', k.cq[0].data.fd);
  }

  lemma WriteEffectInv(cfg: Config, n: nat, s: System, s': System)
    requires Inv(cfg, n, s) && s.k.cq != [] && WriteEffect(s.v, P.Reap(s.k), s.k.cq[0], s'.v, s'.k)
    ensures Inv(cfg, n, s')
  {
    ReapKeeps(cfg, n, s);
    WriteKeepsAccounts(n, s.v, s.k, s'.v, s'.k);
    WriteKeepsSessions(cfg, s.v, P.Reap(s.k), s.k.cq[0], s'.v, s'.k);
    WriteKeepsEntries(cfg, n, s, s');
    WriteKeepsServed(n, s.v, s.k, s'.v, s'.k);
    SameAreClean(P.Reap(s.k), s'.k);
  }

  lemma WriteInv(cfg: Config, n: nat, s: System, junk: Promise)
    requires Inv(cfg, n, s) && CanStep(s, P.HandleNext)
    requires s.k.cq[0].data.kind.WRITE? && !s.k.cq[0].OutOfBuffers()
    ensures Good(cfg, n, Next(cfg, s, P.HandleNext, junk))
  {
    var c, v := s.k.cq[0], s.v;
    assert c in s.k.cq && CqeServed(v, c) && Connected(v, c.data.fd);
    WriteDelivered(cfg, v, c, junk);
    var s' := Next(cfg, s, P.HandleNext, junk);
    if !s'.v.Stopped() { WriteEffectInv(cfg, n, s, s'); }
  }

  // ----- An accept -----

  ghost predicate AcceptEffect(cfg: Config, v: Server, k: Kernel, c: Cqe, v': Server, k': Kernel, junk: Promise) {
    && c.data.kind.ACCEPT? && k' == k && c.res >= 0 && c.res !in v.connections
    && v' == v.(
         sq := v.sq + [RecvSqe(c.res, junk.info.bid), AcceptSqe(cfg)],
         connections := v.connections[c.res := |v.frames|],
         frames := v.frames + [
           Suspended(AtRead, c.res, Promise(ConnInfo(c.res, READ, junk.info.bid), junk.res), [ReadQueued])])
  }

  lemma AcceptKeepsBalance(cfg: Config, n: nat, sq: seq<Sqe>, k: Kernel, live: set<nat>, bid: nat, w: Weight)
    requires k.cq != [] && P.Opens(k.cq[0]) && k.cq[0].res !in live && Balanced(n, sq, k, live, multiset{}, w)
    ensures var fd := k.cq[0].res;
            Balanced(n, sq + [RecvSqe(fd, bid), AcceptSqe(cfg)], P.Reap(k), live + {fd}, multiset{}, w)
  {
    var c := k.cq[0];
    var e, a := RecvSqe(c.res, bid), AcceptSqe(cfg);
    SumAppend(sq, [e, a], OfSqe(w));
    SumFew(e, a, OfSqe(w));
    assert SqeWeight(w, e) + SqeWeight(w, a) == CqeWeight(w, c) + P.ReplyGain(c, w);
    assert Sum(k.cq, OfCqe(w)) == CqeWeight(w, c) + Sum(k.cq[1..], OfCqe(w));
  }

  lemma AcceptKeepsAccounts(cfg: Config, n: nat, v: Server, k: Kernel, v': Server, k': Kernel, junk: Promise)
    requires k.cq != [] && AcceptEffect(cfg, v, P.Reap(k), k.cq[0], v', k', junk)
    requires Accounted(n, v.sq, k, v.connections.Keys, multiset{}) && Sized(n, v.sq, k)
    ensures Accounted(n, v'.sq, k', v'.connections.Keys, multiset{}) && Sized(n, v'.sq, k')
  {
    var c, live := k.cq[0], v.connections.Keys;
    assert v'.connections.Keys == live + {c.res};
    forall w ensures Balanced(n, v'.sq, k', live + {c.res}, multiset{}, w) {
      assert Balanced(n, v.sq, k, live, multiset{}, w);
      AcceptKeepsBalance(cfg, n, v.sq, k, live, junk.info.bid, w);
    }
  }

  lemma AcceptKeepsHandles(cfg: Config, v: Server, k: Kernel, c: Cqe, v': Server, k': Kernel, junk: Promise)
    requires AcceptEffect(cfg, v, k, c, v', k', junk) && HandlesOk(v)
    ensures HandlesOk(v')
  {
    forall g | g in v'.connections ensures Connected(v', g) {
      if g != c.res { assert Connected(v, g); }
    }
    assert v'.destroyed == v.destroyed;
  }

  lemma AcceptKeepsFrames(cfg: Config, v: Server, k: Kernel, c: Cqe, v': Server, k': Kernel, junk: Promise)
    requires AcceptEffect(cfg, v, k, c, v', k', junk) && FramesOk(cfg, v)
    ensures FramesOk(cfg, v') && ChangesOnlyFrame(v, v', c.res) && At(v', c.res, AtRead)
  {
    AcceptKeepsHandles(cfg, v, k, c, v', k', junk);
    assert forall id :: 0 <= id < |v.frames| ==> v'.frames[id] == v.frames[id];
  }

  lemma AcceptKeepsSessions(cfg: Config, v: Server, k: Kernel, c: Cqe, v': Server, k': Kernel, junk: Promise)
    requires AcceptEffect(cfg, v, k, c, v', k', junk) && FramesOk(cfg, v) && SessionsOk(cfg, v, k)
    requires k.Trail(c.res) == []
    ensures FramesOk(cfg, v') && SessionsOk(cfg, v', k')
  {
    AcceptKeepsFrames(cfg, v, k, c, v', k', junk);
    forall g | g in v'.connections ensures SessionOk(cfg, v', k', g) {
      if g != c.res {
        assert SessionOk(cfg, v, k, g);
        OtherSession(cfg, v, v', k, k', c.res, g);
      }
    }
  }

  lemma AcceptEffectInv(cfg: Config, n: nat, s: System, s': System, junk: Promise)
    requires Inv(cfg, n, s) && s.k.cq != [] && AcceptEffect(cfg, s.v, P.Reap(s.k), s.k.cq[0], s'.v, s'.k, junk)
    ensures Inv(cfg, n, s')
  {
    var c, v, k := s.k.cq[0], s.v, P.Reap(s.k);
    assert c in s.k.cq && P.Opens(c);
    ReapKeeps(cfg, n, s);
    NothingOf(n, v.sq, s.k, v.connections.Keys, c.res);
    AcceptKeepsAccounts(cfg, n, v, s.k, s'.v, s'.k, junk);
    AcceptKeepsSessions(cfg, v, k, c, s'.v, s'.k, junk);
    AcceptKeepsFrames(cfg, v, k, c, s'.v, s'.k, junk);
    OthersServed(v, s'.v, v.sq, k, s'.k, c.res);
    assert Settled(k, c.res, []);
    forall e | e in s'.v.sq ensures SqeSettled(s'.k, e) && SqeServed(s'.v, e) {
      if e in v.sq { assert SqeSettled(k, e) && SqeServed(s'.v, e); }
    }
  }

  /** A descriptor that is not live has no operation in flight. */
  lemma NothingOf(n: nat, sq: seq<Sqe>, k: Kernel, live: set<nat>, fd: nat)
    requires Accounted(n, sq, k, live, multiset{}) && fd !in live && k.cq != []
    ensures NoOther(sq, P.Reap(k), Connection(fd))
  {
    assert Balanced(n, sq, k, live, multiset{}, Connection(fd));
    SumsAtLeast(sq, k, Connection(fd));
  }

  lemma AcceptFailKeepsAccounts(cfg: Config, n: nat, sq: seq<Sqe>, k: Kernel, live: set<nat>)
    requires k.cq != [] && k.cq[0].data.kind.ACCEPT? && k.cq[0].res < 0 && Accounted(n, sq, k, live, multiset{})
    ensures Accounted(n, sq + [AcceptSqe(cfg)], P.Reap(k), live, multiset{})
  {
    forall w ensures Balanced(n, sq + [AcceptSqe(cfg)], P.Reap(k), live, multiset{}, w) {
      assert Balanced(n, sq, k, live, multiset{}, w);
      SumPush(sq, AcceptSqe(cfg), OfSqe(w));
      assert Sum(k.cq, OfCqe(w)) == CqeWeight(w, k.cq[0]) + Sum(k.cq[1..], OfCqe(w));
    }
  }

  lemma AcceptFailInv(cfg: Config, n: nat, s: System, s': System)
    requires Inv(cfg, n, s) && s.k.cq != [] && s.k.cq[0].data.kind.ACCEPT? && s.k.cq[0].res < 0
    requires s'.v == s.v.(sq := s.v.sq + [AcceptSqe(cfg)]) && s'.k == P.Reap(s.k)
    ensures Inv(cfg, n, s')
  {
    ReapKeeps(cfg, n, s);
    SameFrames(cfg, s.v, s'.v);
    AcceptFailKeepsAccounts(cfg, n, s.v.sq, s.k, s.v.connections.Keys);
    forall g | g in s'.v.connections ensures SessionOk(cfg, s'.v, s'.k, g) {
      SameSession(cfg, s.v, s'.v, s'.k, s'.k, g);
    }
  }

  lemma AcceptInv(cfg: Config, n: nat, s: System, junk: Promise)
    requires Inv(cfg, n, s) && CanStep(s, P.HandleNext)
    requires s.k.cq[0].data.kind.ACCEPT? && !s.k.cq[0].OutOfBuffers()
    ensures Good(cfg, n, Next(cfg, s, P.HandleNext, junk))
  {
    var c, v := s.k.cq[0], s.v;
    assert c in s.k.cq;
    if P.Opens(c) { AnnouncedIsNotLive(n, v.sq, s.k, v.connections.Keys, c); }
    AcceptDelivered(cfg, v, c, junk);
    var s' := Next(cfg, s, P.HandleNext, junk);
    if !s'.v.Stopped() {
      if c.res >= 0 { AcceptEffectInv(cfg, n, s, s', junk); } else { AcceptFailInv(cfg, n, s, s'); }
    }
  }

  // ----- A returned buffer -----

  lemma ProvidedInv(cfg: Config, n: nat, s: System, s': System)
    requires Inv(cfg, n, s) && s.k.cq != [] && s.k.cq[0].data.kind.PROV_BUF?
    requires s'.v == s.v && s'.k == P.Reap(s.k)
    ensures Inv(cfg, n, s')
  {
    var live := s.v.connections.Keys;
    ReapKeeps(cfg, n, s);
    forall w ensures Balanced(n, s'.v.sq, s'.k, live, multiset{}, w) {
      assert Balanced(n, s.v.sq, s.k, live, multiset{}, w);
      assert Sum(s.k.cq, OfCqe(w)) == CqeWeight(w, s.k.cq[0]) + Sum(s.k.cq[1..], OfCqe(w));
    }
  }

  // ----- Every run -----

  lemma StepInv(cfg: Config, n: nat, s: System, step: P.Step, s': System, junk: Promise)
    requires CanStep(s, step) && s' == Next(cfg, s, step, junk) && ReadsServable(cfg, s, step) && Good(cfg, n, s)
    ensures Good(cfg, n, s')
  {
    match step
    case Submit => SubmitInv(cfg, n, s, junk);
    case Internal(t) => InternalInv(cfg, n, s, t, junk);
    case Wake =>
    case Sleep =>
    case HandleNext =>
      var c := s.k.cq[0];
      if !c.OutOfBuffers() {
        match c.data.kind {
          case READ => ReadInv(cfg, n, s, junk);
          case WRITE => WriteInv(cfg, n, s, junk);
          case ACCEPT => AcceptInv(cfg, n, s, junk);
          case PROV_BUF => if c.res >= 0 { ProvidedInv(cfg, n, s, s'); }
        }
      }
  }

  lemma RunInv(cfg: Config, n: nat, states: seq<System>, steps: seq<P.Step>, junk: seq<Promise>, i: nat)
    requires Run(cfg, n, states, steps, junk) && i < |states|
    ensures Good(cfg, n, states[i])
  {
    InitialInv(cfg, n, states[0]);
    for j := 0 to i
      invariant Good(cfg, n, states[j])
    {
      StepInv(cfg, n, states[j], steps[j], states[j + 1], junk[j]);
    }
  }
}
