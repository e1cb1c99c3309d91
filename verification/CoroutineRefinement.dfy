/** The coroutine server and the kernel as one system, and the forward simulation that shows it to be the event loop
    of `EchoProtocol` under another form. */
module CoroutineRefinement {
  import opened Sums
  import opened Uring
  import opened EchoCoroutine
  import opened Accounts
  import opened Streams
  import L = EchoLoop
  import P = EchoProtocol
  import T = EchoTheorems

  datatype System = System(v: Server, k: Kernel, phase: P.Phase)

  predicate CanStep(s: System, step: P.Step) {
    !s.v.Stopped() && P.Ready(s.v.sq, s.k, s.phase, step)
  }

  function Next(cfg: Config, s: System, step: P.Step, junk: Promise): System
    requires CanStep(s, step)
  {
    match step
    case Submit => s.(k := Issue(s.k, s.v.sq[0]), v := s.v.(sq := s.v.sq[1..]))
    case Wake => s.(phase := P.Handling(0, |s.v.connections|, |s.k.armed| + |s.k.cq|))
    case Internal(t) => s.(k := Apply(s.k, t))
    case HandleNext =>
      s.(v := Handle(cfg, s.v, s.k.cq[0], junk), k := P.Reap(s.k), phase := s.phase.(count := s.phase.count + 1))
    case Sleep => s.(phase := P.Submitting)
  }

  /** The completion that a step hands to the server is not a receive that failed. */
  predicate ReadsSucceed(s: System, step: P.Step) {
    step.HandleNext? && s.k.cq != [] && s.k.cq[0].data.kind.READ? ==> s.k.cq[0].res >= 0 || s.k.cq[0].OutOfBuffers()
  }

  ghost predicate Run(cfg: Config, n: nat, states: seq<System>, steps: seq<P.Step>, junk: seq<Promise>) {
    && |states| == |steps| + 1 && |junk| == |steps|
    && states[0].v == Boot(cfg) && P.Initial(cfg, n, Abs(states[0]))
    && forall i :: 0 <= i < |steps| ==>
         CanStep(states[i], steps[i]) && states[i + 1] == Next(cfg, states[i], steps[i], junk[i])
  }

  // ----- The abstraction: user_data fields that are never read are cleared -----

  function NormInfo(d: ConnInfo): ConnInfo {
    match d.kind
    case READ => d.(bid := 0)
    case PROV_BUF => ConnInfo(0, PROV_BUF, 0)
    case _ => d
  }

  function NormSqe(): Sqe -> Sqe { (e: Sqe) => e.(data := NormInfo(e.data)) }

  function NormArmed(): Armed -> Armed { (a: Armed) => a.(data := NormInfo(a.data)) }

  function NormCqe(): Cqe -> Cqe { (c: Cqe) => c.(data := NormInfo(c.data)) }

  function NormKernel(k: Kernel): Kernel {
    k.(armed := Map(NormArmed(), k.armed), cq := Map(NormCqe(), k.cq))
  }

  function AbsServer(v: Server): L.Server {
    L.Server(Map(NormSqe(), v.sq), v.connections.Keys, v.shut, v.exited, v.faulted)
  }

  function Abs(s: System): P.System {
    P.System(AbsServer(s.v), NormKernel(s.k), s.phase)
  }

  lemma IssueCommutes(k: Kernel, e: Sqe)
    ensures NormKernel(Issue(k, e)) == Issue(NormKernel(k), NormSqe()(e))
  {
    if e.op.Provide? {
      MapPush(NormCqe(), k.cq, Cqe(e.data, 0, 0));
    } else {
      MapPush(NormArmed(), k.armed, Arm(e));
    }
  }

  lemma ApplyCommutes(k: Kernel, t: KStep)
    requires Enabled(k, t)
    ensures Enabled(NormKernel(k), t) && NormKernel(Apply(k, t)) == Apply(NormKernel(k), t)
  {
    if StaysArmed(t) {
      MapReplace(NormArmed(), k.armed, t.i, Rearmed(k, t));
    } else {
      MapReplace(NormArmed(), k.armed, t.i, k.armed[t.i]);
      MapPush(NormCqe(), k.cq, Completion(k, t));
    }
  }

  // ----- Frames and the entries they wait for -----

  /** The coroutine of `fd` is suspended at `point`. */
  predicate At(v: Server, fd: nat, point: Point) {
    fd in v.connections && v.IsSuspended(v.connections[fd]) && v.frames[v.connections[fd]].point == point
  }

  /** The coroutine of `fd` is suspended in the write of buffer `bid`. */
  predicate Writes(v: Server, fd: nat, bid: nat) {
    At(v, fd, AtWrite) && v.frames[v.connections[fd]].promise.info.bid == bid
  }

  predicate SqeServed(v: Server, e: Sqe) {
    (e.op.Recv? ==> At(v, e.op.fd, AtRead)) && (e.op.Send? ==> Writes(v, e.op.fd, e.op.bid))
  }

  predicate ArmedServed(v: Server, a: Armed) {
    (a.Receiving? ==> At(v, a.fd, AtRead)) && (a.Sending? ==> Writes(v, a.fd, a.bid))
  }

  predicate CqeServed(v: Server, c: Cqe) {
    (c.data.kind.READ? ==> At(v, c.data.fd, AtRead)) && (c.data.kind.WRITE? ==> Writes(v, c.data.fd, c.data.bid))
  }

  /** Every outstanding operation finds the coroutine that queued it where it waits for the result. */
  ghost predicate Served(v: Server, sq: seq<Sqe>, k: Kernel) {
    && (forall e :: e in sq ==> SqeServed(v, e))
    && (forall a :: a in k.armed ==> ArmedServed(v, a))
    && (forall c :: c in k.cq ==> CqeServed(v, c))
  }

  predicate Connected(v: Server, fd: nat)
    requires fd in v.connections
  {
    var id := v.connections[fd];
    && v.IsSuspended(id)
    && var f := v.frames[id]; f.fd == f.promise.info.fd == fd && (f.point.AtRead? || f.point.AtWrite?)
  }

  /** The map and the frames agree: every entry leads to a frame that waits in a read or a write, every suspended frame
      has its entry, and a frame is destroyed once or is suspended. */
  ghost predicate FramesOk(v: Server) {
    && (forall fd :: fd in v.connections ==> Connected(v, fd))
    && (forall id :: 0 <= id < |v.frames| && v.frames[id].Suspended? ==>
          v.frames[id].fd in v.connections && v.connections[v.frames[id].fd] == id)
    && (forall id :: multiset(v.destroyed)[id] == Bit(0 <= id < |v.frames| && v.frames[id].Destroyed?))
  }

  /** What holds in every reachable state, also after a failed read. */
  ghost predicate SafeInv(n: nat, s: System) {
    && Accounted(n, Abs(s).v.sq, Abs(s).k, Abs(s).v.live, multiset(s.v.shut))
    && FramesOk(s.v)
    && Served(s.v, s.v.sq, s.k)
    && !s.v.misused
  }

  ghost predicate Inv(n: nat, s: System) { SafeInv(n, s) && P.Inv(n, Abs(s)) }

  lemma PushCommutes(cfg: Config, v: Server, e: Sqe)
    requires !v.exited && !v.misused
    ensures AbsServer(Push(cfg, v, e)) == L.Push(cfg, AbsServer(v), NormSqe()(e))
  {
    MapPush(NormSqe(), v.sq, e);
  }

  // ----- One completion -----

  /** `v` with frame `id` replaced. */
  function WithFrame(v: Server, id: nat, f: Frame): Server
    requires id < |v.frames|
  {
    v.(frames := v.frames[id := f])
  }

  /** A read that returned 0: the buffer goes back, then the nested resumption runs the coroutine to its end. */
  lemma DeliverEnd(cfg: Config, v: Server, fd: nat, bid: nat)
    requires !v.Stopped() && At(v, fd, AtRead) && Connected(v, fd)
    ensures var v', id := Deliver(cfg, v, fd, SetResult(bid, 0)), v.connections[fd];
            if |v.sq| < cfg.entries then
              v' == WithFrame(v, id, Destroyed).(
                sq := v.sq + [Sqe(Provide(bid), ConnInfo(fd, PROV_BUF, bid))],
                connections := v.connections - {fd}, shut := v.shut + [fd], destroyed := v.destroyed + [id])
            else v'.(frames := v.frames) == v.(faulted := true)
  {
    var id := v.connections[fd];
    var f := v.frames[id];
    var v1 := WithFrame(v, id, f.(promise := SetResult(bid, 0)(f.promise)));
    var v2 := EchoAddBuffer(cfg, v1, id, AtEndBuffer);
    if !v2.Stopped() {
      assert Resume(cfg, v2, id) == Finish(v2, id);
      assert v2.frames[id := Destroyed] == v.frames[id := Destroyed];
    }
  }

  /** A read that returned bytes: the coroutine goes on to its write. */
  lemma DeliverBytes(cfg: Config, v: Server, fd: nat, bid: nat, res: nat)
    requires !v.Stopped() && At(v, fd, AtRead) && Connected(v, fd) && res > 0
    ensures var v', id := Deliver(cfg, v, fd, SetResult(bid, res)), v.connections[fd];
            if |v.sq| < cfg.entries then
              v' == WithFrame(v, id, Suspended(AtWrite, fd, Promise(ConnInfo(fd, WRITE, bid), res))).(
                sq := v.sq + [Sqe(Send(fd, bid, ToLength(res)), ConnInfo(fd, WRITE, bid))])
            else v'.(frames := v.frames) == v.(faulted := true)
  {
    var id := v.connections[fd];
    var f := v.frames[id];
    var v1 := WithFrame(v, id, f.(promise := SetResult(bid, res)(f.promise)));
    var f' := Suspended(AtWrite, fd, Promise(ConnInfo(fd, WRITE, bid), res));
    assert v1.frames[id := f'] == v.frames[id := f'];
  }

  /** The end of a write: the buffer goes back, and the nested resumption queues the next read behind it. */
  lemma DeliverWritten(cfg: Config, v: Server, fd: nat)
    requires !v.Stopped() && At(v, fd, AtWrite) && Connected(v, fd)
    ensures var v', id := Deliver(cfg, v, fd, Same()), v.connections[fd];
            var p := v.frames[id].promise;
            var provide := Sqe(Provide(p.info.bid), ConnInfo(fd, PROV_BUF, p.info.bid));
            var info := ConnInfo(fd, READ, p.info.bid);
            if |v.sq| + 1 < cfg.entries then
              v' == WithFrame(v, id, Suspended(AtRead, fd, Promise(info, p.res))).(
                sq := v.sq + [provide] + [Sqe(Recv(fd, MAX_MESSAGE_LEN), info)])
            else
              v'.(frames := v.frames, sq := v.sq) == v.(faulted := true)
              && v'.sq == if |v.sq| < cfg.entries then v.sq + [provide] else v.sq
  {
    var id := v.connections[fd];
    var f := v.frames[id];
    var v1 := WithFrame(v, id, f.(promise := Same()(f.promise)));
    var v2 := EchoAddBuffer(cfg, v1, id, AtBuffer);
    if !v2.Stopped() {
      assert Resume(cfg, v2, id) == EchoRead(cfg, v2, id);
      var f' := Suspended(AtRead, fd, Promise(ConnInfo(fd, READ, f.promise.info.bid), f.promise.res));
      assert v2.frames[id := f'] == v.frames[id := f'];
    }
  }

  /** A new connection: its coroutine runs to its first read. */
  lemma DeliverFirst(cfg: Config, v: Server, fd: nat, junk: Promise)
    requires !v.Stopped() && fd !in v.connections
    ensures var v' := Deliver(cfg, Emplace(v, fd, junk), fd, SetFd(fd));
            var info := ConnInfo(fd, READ, junk.info.bid);
            if |v.sq| < cfg.entries then
              v' == v.(
                frames := v.frames + [Suspended(AtRead, fd, Promise(info, junk.res))],
                connections := v.connections[fd := |v.frames|],
                sq := v.sq + [Sqe(Recv(fd, MAX_MESSAGE_LEN), info)])
            else v'.(frames := v.frames) == v.(faulted := true, connections := v.connections[fd := |v.frames|])
  {
    var v0, id := Emplace(v, fd, junk), |v.frames|;
    var f := Suspended(AtStart, fd, junk);
    assert v0.connections[fd] == id && v0.frames[id] == f;
    var v1 := WithFrame(v0, id, f.(promise := SetFd(fd)(junk)));
    assert Resume(cfg, v1, id) == EchoRead(cfg, v1, id);
    var f' := Suspended(AtRead, fd, Promise(ConnInfo(fd, READ, junk.info.bid), junk.res));
    assert v1.frames[id := f'] == v.frames + [f'];
  }

  lemma SuspendKeepsFrames(v: Server, v': Server, id: nat, f: Frame)
    requires FramesOk(v) && v.IsSuspended(id)
    requires f.Suspended? && f.fd == f.promise.info.fd == v.frames[id].fd && (f.point.AtRead? || f.point.AtWrite?)
    requires v'.frames == v.frames[id := f] && v'.connections == v.connections && v'.destroyed == v.destroyed
    ensures FramesOk(v')
  {
    forall fd | fd in v'.connections ensures Connected(v', fd) {
      assert Connected(v, fd);
    }
    assert forall i :: multiset(v'.destroyed)[i] == multiset(v.destroyed)[i];
  }

  lemma EndKeepsFrames(v: Server, v': Server, fd: nat)
    requires FramesOk(v) && fd in v.connections && Connected(v, fd)
    requires v'.frames == v.frames[v.connections[fd] := Destroyed] && v'.connections == v.connections - {fd}
    requires v'.destroyed == v.destroyed + [v.connections[fd]]
    ensures FramesOk(v')
  {
    forall g | g in v'.connections ensures Connected(v', g) {
      assert Connected(v, g);
    }
    assert forall i :: multiset(v'.destroyed)[i] == multiset(v.destroyed)[i] + if i == v.connections[fd] then 1 else 0;
  }

  lemma FirstKeepsFrames(v: Server, v': Server, fd: nat, f: Frame)
    requires FramesOk(v) && fd !in v.connections
    requires f.Suspended? && f.fd == f.promise.info.fd == fd && f.point.AtRead?
    requires v'.frames == v.frames + [f] && v'.connections == v.connections[fd := |v.frames|] && v'.destroyed == v.destroyed
    ensures FramesOk(v')
  {
    forall g | g in v'.connections ensures Connected(v', g) {
      if g != fd { assert Connected(v, g); }
    }
    assert forall i :: multiset(v'.destroyed)[i] == multiset(v.destroyed)[i];
  }

  /** The frames of all connections but `fd` are as they were. */
  ghost predicate ChangesOnlyFrame(v: Server, v': Server, fd: nat) {
    forall g :: g in v.connections && g != fd && v.IsSuspended(v.connections[g]) ==>
      && g in v'.connections && v'.connections[g] == v.connections[g]
      && v'.IsSuspended(v.connections[g]) && v'.frames[v.connections[g]] == v.frames[v.connections[g]]
  }

  lemma DistinctFrames(v: Server, fd: nat)
    requires FramesOk(v) && fd in v.connections
    ensures forall g :: g in v.connections && g != fd ==> v.connections[g] != v.connections[fd]
  {
    forall g | g in v.connections && g != fd ensures v.connections[g] != v.connections[fd] {
      assert Connected(v, g) && Connected(v, fd);
    }
  }

  function WriteOf(fd: nat, bid: nat, res: nat): Sqe { Sqe(Send(fd, bid, ToLength(res)), ConnInfo(fd, WRITE, bid)) }

  lemma EndKeepsOthers(cfg: Config, v: Server, fd: nat, bid: nat)
    requires !v.Stopped() && FramesOk(v) && At(v, fd, AtRead) && |v.sq| < cfg.entries
    ensures var v' := Deliver(cfg, v, fd, SetResult(bid, 0)); FramesOk(v') && ChangesOnlyFrame(v, v', fd)
  {
    assert Connected(v, fd);
    DeliverEnd(cfg, v, fd, bid);
    EndKeepsFrames(v, Deliver(cfg, v, fd, SetResult(bid, 0)), fd);
    DistinctFrames(v, fd);
  }

  lemma EndCommutes(cfg: Config, v: Server, fd: nat, bid: nat)
    requires !v.Stopped() && At(v, fd, AtRead) && Connected(v, fd)
    ensures var v' := Deliver(cfg, v, fd, SetResult(bid, 0));
            && !v'.misused
            && AbsServer(v') == L.Shutdown(L.Push(cfg, AbsServer(v), L.ProvideSqe(bid)), fd)
  {
    DeliverEnd(cfg, v, fd, bid);
    PushCommutes(cfg, v, Sqe(Provide(bid), ConnInfo(fd, PROV_BUF, bid)));
    assert (v.connections - {fd}).Keys == v.connections.Keys - {fd};
  }

  lemma EndSimulates(cfg: Config, v: Server, c: Cqe, junk: Promise)
    requires !v.Stopped() && FramesOk(v) && c.data.kind.READ? && CqeServed(v, c) && c.res == 0
    ensures var v' := Handle(cfg, v, c, junk);
            !v'.misused && AbsServer(v') == L.Handle(cfg, AbsServer(v), NormCqe()(c))
  {
    assert Connected(v, c.data.fd);
    EndCommutes(cfg, v, c.data.fd, c.SelectedBuffer());
  }

  lemma BytesKeepFrames(cfg: Config, v: Server, fd: nat, bid: nat, res: nat)
    requires !v.Stopped() && FramesOk(v) && At(v, fd, AtRead) && res > 0 && |v.sq| < cfg.entries
    ensures var v' := Deliver(cfg, v, fd, SetResult(bid, res));
            FramesOk(v') && ChangesOnlyFrame(v, v', fd) && Writes(v', fd, bid)
  {
    assert Connected(v, fd);
    DeliverBytes(cfg, v, fd, bid, res);
    var id, v' := v.connections[fd], Deliver(cfg, v, fd, SetResult(bid, res));
    SuspendKeepsFrames(v, v', id, v'.frames[id]);
    DistinctFrames(v, fd);
  }

  lemma SmallSize(res: int)
    requires 0 <= res <= MAX_MESSAGE_LEN
    ensures ToSize(res) == ToLength(res) == res
  {
  }

  lemma BytesCommute(cfg: Config, v: Server, fd: nat, bid: nat, res: nat)
    requires !v.Stopped() && At(v, fd, AtRead) && Connected(v, fd) && res > 0
    ensures var v' := Deliver(cfg, v, fd, SetResult(bid, res));
            !v'.misused && AbsServer(v') == L.Push(cfg, AbsServer(v), L.WriteSqe(fd, bid, ToLength(res)))
  {
    DeliverBytes(cfg, v, fd, bid, res);
    PushCommutes(cfg, v, WriteOf(fd, bid, res));
  }

  lemma BytesSimulates(cfg: Config, v: Server, c: Cqe, junk: Promise)
    requires !v.Stopped() && FramesOk(v) && c.data.kind.READ? && CqeServed(v, c) && 0 < c.res <= MAX_MESSAGE_LEN
    ensures var v' := Handle(cfg, v, c, junk);
            !v'.misused && AbsServer(v') == L.Handle(cfg, AbsServer(v), NormCqe()(c))
  {
    SmallSize(c.res);
    assert Connected(v, c.data.fd);
    BytesCommute(cfg, v, c.data.fd, c.SelectedBuffer(), c.res);
  }

  lemma WriteSimulates(cfg: Config, v: Server, c: Cqe, junk: Promise)
    requires !v.Stopped() && FramesOk(v) && c.data.kind.WRITE? && CqeServed(v, c) && !c.OutOfBuffers()
    ensures var v' := Handle(cfg, v, c, junk);
            && AbsServer(v') == L.Handle(cfg, AbsServer(v), NormCqe()(c))
            && !v'.misused
            && (!v'.Stopped() ==> FramesOk(v') && ChangesOnlyFrame(v, v', c.data.fd) && At(v', c.data.fd, AtRead))
  {
    var fd, v' := c.data.fd, Handle(cfg, v, c, junk);
    assert Connected(v, fd);
    var id := v.connections[fd];
    var info := v.frames[id].promise.info;
    DeliverWritten(cfg, v, fd);
    var provide := Sqe(Provide(info.bid), ConnInfo(fd, PROV_BUF, info.bid));
    PushCommutes(cfg, v, provide);
    PushCommutes(cfg, Push(cfg, v, provide), Sqe(Recv(fd, MAX_MESSAGE_LEN), ConnInfo(fd, READ, info.bid)));
    if |v.sq| + 1 < cfg.entries { SuspendKeepsFrames(v, v', id, v'.frames[id]); }
  }

  lemma AcceptSimulates(cfg: Config, v: Server, c: Cqe, junk: Promise)
    requires !v.Stopped() && FramesOk(v) && c.data.kind.ACCEPT? && !c.OutOfBuffers()
    requires c.res >= 0 ==> c.res !in v.connections
    ensures var v' := Handle(cfg, v, c, junk);
            && AbsServer(v') == L.Handle(cfg, AbsServer(v), NormCqe()(c))
            && !v'.misused
            && (!v'.Stopped() ==> FramesOk(v'))
            && (!v'.Stopped() ==> if c.res >= 0 then ChangesOnlyFrame(v, v', c.res) && At(v', c.res, AtRead)
                                  else v'.connections == v.connections && v'.frames == v.frames)
  {
    var v' := Handle(cfg, v, c, junk);
    if c.res >= 0 {
      var v1 := Deliver(cfg, Emplace(v, c.res, junk), c.res, SetFd(c.res));
      DeliverFirst(cfg, v, c.res, junk);
      var adopted := v.(connections := v.connections[c.res := |v.frames|]);
      assert adopted.connections.Keys == v.connections.Keys + {c.res};
      PushCommutes(cfg, adopted, Sqe(Recv(c.res, MAX_MESSAGE_LEN), ConnInfo(c.res, READ, junk.info.bid)));
      PushCommutes(cfg, v1, L.AcceptSqe(cfg));
      if |v.sq| < cfg.entries { FirstKeepsFrames(v, v', c.res, v1.frames[|v.frames|]); }
    } else {
      PushCommutes(cfg, v, L.AcceptSqe(cfg));
      assert forall fd :: fd in v.connections ==> Connected(v, fd);
    }
  }

  // ----- Steps of the whole system -----

  lemma OthersServed(v: Server, v': Server, fd: nat)
    requires ChangesOnlyFrame(v, v', fd)
    ensures forall e {:trigger SqeServed(v', e)} ::
      SqeWeight(Connection(fd), e) == 0 && SqeServed(v, e) ==> SqeServed(v', e)
    ensures forall a {:trigger ArmedServed(v', a)} ::
      ArmedWeight(Connection(fd), a) == 0 && ArmedServed(v, a) ==> ArmedServed(v', a)
    ensures forall c {:trigger CqeServed(v', c)} ::
      CqeWeight(Connection(fd), c) == 0 && CqeServed(v, c) ==> CqeServed(v', c)
  {
  }

  /** Clearing unread tag fields changes no weight that concerns connections. */
  lemma NormWeight(k: Kernel, sq: seq<Sqe>, fd: nat)
    ensures forall e :: e in sq ==>
      NormSqe()(e) in Map(NormSqe(), sq) && SqeWeight(Connection(fd), NormSqe()(e)) == SqeWeight(Connection(fd), e)
    ensures forall a :: a in k.armed ==>
      NormArmed()(a) in Map(NormArmed(), k.armed) && ArmedWeight(Connection(fd), NormArmed()(a)) == ArmedWeight(Connection(fd), a)
    ensures forall c :: c in k.cq ==>
      NormCqe()(c) in Map(NormCqe(), k.cq) && CqeWeight(Connection(fd), NormCqe()(c)) == CqeWeight(Connection(fd), c)
  {
    forall e | e in sq ensures NormSqe()(e) in Map(NormSqe(), sq) {
      var i :| 0 <= i < |sq| && sq[i] == e;
      assert Map(NormSqe(), sq)[i] == NormSqe()(e);
    }
    forall a | a in k.armed ensures NormArmed()(a) in Map(NormArmed(), k.armed) {
      var i :| 0 <= i < |k.armed| && k.armed[i] == a;
      assert Map(NormArmed(), k.armed)[i] == NormArmed()(a);
    }
    forall c | c in k.cq ensures NormCqe()(c) in Map(NormCqe(), k.cq) {
      var i :| 0 <= i < |k.cq| && k.cq[i] == c;
      assert Map(NormCqe(), k.cq)[i] == NormCqe()(c);
    }
  }

  /** No entry besides the completion being handled belongs to its connection. */
  ghost predicate NoOther(sq: seq<Sqe>, k: Kernel, fd: nat) {
    && (forall e :: e in sq ==> SqeWeight(Connection(fd), e) == 0)
    && (forall a :: a in k.armed ==> ArmedWeight(Connection(fd), a) == 0)
    && (forall c :: c in k.cq ==> CqeWeight(Connection(fd), c) == 0)
  }

  lemma HandledIsAlone(n: nat, sq: seq<Sqe>, k: Kernel, live: set<nat>, dead: multiset<nat>, fd: nat)
    requires Accounted(n, sq, k, live, dead) && k.cq != []
    requires var c := k.cq[0]; CqeWeight(Connection(fd), c) == 1 || (P.Opens(c) && c.res == fd)
    ensures NoOther(sq, P.Reap(k), fd)
    ensures P.Opens(k.cq[0]) ==> k.cq[0].res !in live
  {
    var c := k.cq[0];
    assert c in k.cq;
    assert Balanced(n, sq, k, live, dead, Connection(fd)) && Balanced(n, sq, k, live, dead, Fresh(fd));
    SumsAtLeast(sq, P.Reap(k), Connection(fd));
    SumsAtLeast(sq, k, Fresh(fd));
    assert Sum(k.cq, OfCqe(Connection(fd))) == CqeWeight(Connection(fd), c) + Sum(k.cq[1..], OfCqe(Connection(fd)));
  }

  lemma CoHandledIsAlone(n: nat, s: System, fd: nat)
    requires SafeInv(n, s) && s.k.cq != []
    requires var c := s.k.cq[0]; CqeWeight(Connection(fd), c) == 1 || (P.Opens(c) && c.res == fd)
    ensures NoOther(s.v.sq, P.Reap(s.k), fd)
    ensures P.Opens(s.k.cq[0]) ==> s.k.cq[0].res !in s.v.connections
  {
    var a := Abs(s);
    assert s.k.cq[0] in s.k.cq;
    NormWeight(s.k, s.v.sq, fd);
    HandledIsAlone(n, a.v.sq, a.k, a.v.live, multiset(a.v.shut), fd);
    MapTail(NormCqe(), s.k.cq);
    NormWeight(P.Reap(s.k), s.v.sq, fd);
  }

  lemma TagsOfNorm(e: Sqe, a: Armed)
    ensures TaggedSqe(NormSqe()(e)) ==> TaggedSqe(e)
    ensures TaggedArmed(NormArmed()(a)) ==> TaggedArmed(a)
  {
  }

  lemma SameFrames(v: Server, v': Server)
    requires v'.connections == v.connections && v'.frames == v.frames && v'.destroyed == v.destroyed
    ensures FramesOk(v) ==> FramesOk(v')
    ensures forall e {:trigger SqeServed(v', e)} :: SqeServed(v', e) == SqeServed(v, e)
    ensures forall a {:trigger ArmedServed(v', a)} :: ArmedServed(v', a) == ArmedServed(v, a)
    ensures forall c {:trigger CqeServed(v', c)} :: CqeServed(v', c) == CqeServed(v, c)
  {
    assert forall fd :: fd in v.connections ==> Connected(v', fd) == Connected(v, fd);
  }

  lemma SubmitSimulates(cfg: Config, n: nat, s: System, junk: Promise)
    requires SafeInv(n, s) && CanStep(s, P.Submit)
    ensures var s' := Next(cfg, s, P.Submit, junk);
            && Abs(s') == P.Next(cfg, Abs(s), P.Submit)
            && FramesOk(s'.v) && Served(s'.v, s'.v.sq, s'.k)
  {
    var e, s' := s.v.sq[0], Next(cfg, s, P.Submit, junk);
    IssueCommutes(s.k, e);
    MapTail(NormSqe(), s.v.sq);
    assert e in s.v.sq && SqeServed(s.v, e);
    NormWeight(s.k, s.v.sq, 0);
    if e.op.Provide? {
      TagsOfNorm(e, Accepting(e.data));
    } else {
      TagsOfNorm(e, Arm(e));
    }
    SameFrames(s.v, s'.v);
  }

  /** A step leaves the operation it concerns with the same coroutine. */
  lemma MovedServed(v: Server, k: Kernel, t: KStep)
    requires Enabled(k, t) && TaggedArmed(k.armed[t.i]) && ArmedServed(v, k.armed[t.i])
    ensures StaysArmed(t) ==> ArmedServed(v, Rearmed(k, t))
    ensures !StaysArmed(t) ==> CqeServed(v, Completion(k, t))
  {
  }

  lemma InternalServed(v: Server, k: Kernel, t: KStep)
    requires Enabled(k, t) && TaggedArmed(k.armed[t.i]) && Served(v, v.sq, k)
    ensures Served(v, v.sq, Apply(k, t))
  {
    assert k.armed[t.i] in k.armed;
    MovedServed(v, k, t);
    if StaysArmed(t) { UpdatedMembers(k.armed, t.i, Rearmed(k, t)); }
  }

  lemma InternalSimulates(cfg: Config, n: nat, s: System, t: KStep, junk: Promise)
    requires SafeInv(n, s) && CanStep(s, P.Internal(t))
    ensures var s' := Next(cfg, s, P.Internal(t), junk);
            && P.CanStep(Abs(s), P.Internal(t))
            && Abs(s') == P.Next(cfg, Abs(s), P.Internal(t))
            && Served(s'.v, s'.v.sq, s'.k)
  {
    var a := s.k.armed[t.i];
    ApplyCommutes(s.k, t);
    assert a in s.k.armed;
    NormWeight(s.k, s.v.sq, 0);
    TagsOfNorm(Sqe(Accept(0), a.data), a);
    InternalServed(s.v, s.k, t);
  }

  lemma HandleSimulates(cfg: Config, n: nat, s: System, junk: Promise)
    requires Inv(n, s) && CanStep(s, P.HandleNext) && ReadsSucceed(s, P.HandleNext)
    ensures var s' := Next(cfg, s, P.HandleNext, junk);
            && P.CanStep(Abs(s), P.HandleNext)
            && Abs(s') == P.Next(cfg, Abs(s), P.HandleNext)
            && !s'.v.misused
            && (!s'.v.Stopped() ==> FramesOk(s'.v) && Served(s'.v, s'.v.sq, s'.k))
  {
    var c, v, k' := s.k.cq[0], s.v, P.Reap(s.k);
    var v' := Handle(cfg, v, c, junk);
    assert c in s.k.cq && CqeServed(v, c);
    MapTail(NormCqe(), s.k.cq);
    if c.OutOfBuffers() || c.data.kind.PROV_BUF? {
    } else if c.data.kind.ACCEPT? {
      if c.res >= 0 { CoHandledIsAlone(n, s, c.res); }
      AcceptSimulates(cfg, v, c, junk);
      if !v'.Stopped() { AcceptServed(cfg, v, c, junk, k'); }
    } else {
      CoHandledIsAlone(n, s, c.data.fd);
      if c.data.kind.WRITE? {
        WriteSimulates(cfg, v, c, junk);
        if !v'.Stopped() { WriteServed(cfg, v, c, junk, k'); }
      } else {
        NormWeight(s.k, s.v.sq, 0);
        assert CqeSized(NormCqe()(c));
        ReadServed(cfg, v, c, junk, k');
        if c.res == 0 { EndSimulates(cfg, v, c, junk); } else { BytesSimulates(cfg, v, c, junk); }
      }
    }
  }

  lemma AcceptServed(cfg: Config, v: Server, c: Cqe, junk: Promise, k: Kernel)
    requires !v.Stopped() && FramesOk(v) && c.data.kind.ACCEPT? && !c.OutOfBuffers() && Served(v, v.sq, k)
    requires c.res >= 0 ==> c.res !in v.connections && NoOther(v.sq, k, c.res)
    requires !Handle(cfg, v, c, junk).Stopped()
    ensures var v' := Handle(cfg, v, c, junk); Served(v', v'.sq, k)
  {
    var v' := Handle(cfg, v, c, junk);
    AcceptSimulates(cfg, v, c, junk);
    if c.res >= 0 {
      OthersServed(v, v', c.res);
      DeliverFirst(cfg, v, c.res, junk);
      forall e | e in v'.sq ensures SqeServed(v', e) {
        if e in v.sq { assert SqeServed(v, e); }
      }
    } else {
      SameFrames(v, v');
    }
  }

  lemma WriteServed(cfg: Config, v: Server, c: Cqe, junk: Promise, k: Kernel)
    requires !v.Stopped() && FramesOk(v) && c.data.kind.WRITE? && !c.OutOfBuffers() && Served(v, v.sq, k)
    requires CqeServed(v, c) && NoOther(v.sq, k, c.data.fd) && !Handle(cfg, v, c, junk).Stopped()
    ensures var v' := Handle(cfg, v, c, junk); Served(v', v'.sq, k)
  {
    var v' := Handle(cfg, v, c, junk);
    WriteSimulates(cfg, v, c, junk);
    OthersServed(v, v', c.data.fd);
    assert Connected(v, c.data.fd);
    DeliverWritten(cfg, v, c.data.fd);
    forall e | e in v'.sq ensures SqeServed(v', e) {
      if e in v.sq { assert SqeServed(v, e); }
    }
  }

  /** A read with any result: the frames stay in order, and every operation finds its coroutine. */
  lemma EndServed(cfg: Config, v: Server, fd: nat, bid: nat, k: Kernel)
    requires !v.Stopped() && FramesOk(v) && At(v, fd, AtRead) && Served(v, v.sq, k) && NoOther(v.sq, k, fd)
    requires |v.sq| < cfg.entries
    ensures var v' := Deliver(cfg, v, fd, SetResult(bid, 0)); FramesOk(v') && Served(v', v'.sq, k)
  {
    var v' := Deliver(cfg, v, fd, SetResult(bid, 0));
    assert Connected(v, fd);
    EndKeepsOthers(cfg, v, fd, bid);
    DeliverEnd(cfg, v, fd, bid);
    OthersServed(v, v', fd);
    forall e | e in v'.sq ensures SqeServed(v', e) {
      if e in v.sq { assert SqeServed(v, e); }
    }
  }

  lemma BytesServed(cfg: Config, v: Server, fd: nat, bid: nat, res: nat, k: Kernel)
    requires !v.Stopped() && FramesOk(v) && At(v, fd, AtRead) && Served(v, v.sq, k) && NoOther(v.sq, k, fd)
    requires |v.sq| < cfg.entries && res > 0
    ensures var v' := Deliver(cfg, v, fd, SetResult(bid, res)); FramesOk(v') && Served(v', v'.sq, k)
  {
    var v' := Deliver(cfg, v, fd, SetResult(bid, res));
    assert Connected(v, fd);
    BytesKeepFrames(cfg, v, fd, bid, res);
    DeliverBytes(cfg, v, fd, bid, res);
    OthersServed(v, v', fd);
    forall e | e in v'.sq ensures SqeServed(v', e) {
      if e in v.sq { assert SqeServed(v, e); }
    }
  }

  lemma DeliveredServed(cfg: Config, v: Server, fd: nat, bid: nat, res: nat, k: Kernel)
    requires !v.Stopped() && FramesOk(v) && At(v, fd, AtRead) && Served(v, v.sq, k) && NoOther(v.sq, k, fd)
    ensures var v' := Deliver(cfg, v, fd, SetResult(bid, res));
            !v'.misused && (!v'.Stopped() ==> FramesOk(v') && Served(v', v'.sq, k))
  {
    assert Connected(v, fd);
    if res == 0 {
      EndCommutes(cfg, v, fd, bid);
      if |v.sq| < cfg.entries { EndServed(cfg, v, fd, bid, k); }
    } else {
      BytesCommute(cfg, v, fd, bid, res);
      if |v.sq| < cfg.entries { BytesServed(cfg, v, fd, bid, res, k); }
    }
  }

  lemma ReadServed(cfg: Config, v: Server, c: Cqe, junk: Promise, k: Kernel)
    requires !v.Stopped() && FramesOk(v) && c.data.kind.READ? && !c.OutOfBuffers() && Served(v, v.sq, k)
    requires CqeServed(v, c) && NoOther(v.sq, k, c.data.fd)
    ensures var v' := Handle(cfg, v, c, junk);
            !v'.misused && (!v'.Stopped() ==> FramesOk(v') && Served(v', v'.sq, k))
  {
    DeliveredServed(cfg, v, c.data.fd, c.SelectedBuffer(), ToSize(c.res), k);
  }

  ghost predicate Good(n: nat, s: System) {
    !s.v.misused && (s.v.Stopped() || Inv(n, s))
  }

  lemma StepSimulates(cfg: Config, n: nat, s: System, step: P.Step, junk: Promise)
    requires Inv(n, s) && CanStep(s, step) && ReadsSucceed(s, step)
    ensures var s' := Next(cfg, s, step, junk);
            && P.CanStep(Abs(s), step)
            && Abs(s') == P.Next(cfg, Abs(s), step)
            && Good(n, s')
  {
    match step {
      case Submit => SubmitSimulates(cfg, n, s, junk);
      case Internal(t) => InternalSimulates(cfg, n, s, t, junk);
      case HandleNext => HandleSimulates(cfg, n, s, junk);
      case Wake =>
      case Sleep =>
    }
    P.StepInv(cfg, n, Abs(s), step);
  }

  lemma InitialInv(cfg: Config, n: nat, s: System)
    requires s.v == Boot(cfg) && P.Initial(cfg, n, Abs(s))
    ensures Inv(n, s)
  {
    P.InitialInv(cfg, n, Abs(s));
    assert |Abs(s).k.armed| == |s.k.armed| && |Abs(s).k.cq| == |s.k.cq|;
  }

  function AbsOf(): System -> P.System { (s: System) => Abs(s) }

  lemma RunStep(cfg: Config, n: nat, s: System, step: P.Step, s': System, junk: Promise)
    requires CanStep(s, step) && s' == Next(cfg, s, step, junk) && ReadsSucceed(s, step) && Good(n, s)
    ensures Good(n, s')
  {
    StepSimulates(cfg, n, s, step, junk);
  }

  lemma RunInv(cfg: Config, n: nat, states: seq<System>, steps: seq<P.Step>, junk: seq<Promise>, i: nat)
    requires Run(cfg, n, states, steps, junk) && i < |states|
    requires forall j :: 0 <= j < |steps| ==> ReadsSucceed(states[j], steps[j])
    ensures Good(n, states[i])
  {
    InitialInv(cfg, n, states[0]);
    for j := 0 to i
      invariant Good(n, states[j])
    {
      RunStep(cfg, n, states[j], steps[j], states[j + 1], junk[j]);
    }
  }

  /** Every run of the coroutine server in which no read fails is a run of the event loop with the same steps: the same
      entries are queued and the same sockets shut down, whatever the promises' memory held at first. */
  lemma CoroutineRefinesLoop(cfg: Config, n: nat, states: seq<System>, steps: seq<P.Step>, junk: seq<Promise>)
    requires Run(cfg, n, states, steps, junk)
    requires forall j :: 0 <= j < |steps| ==> ReadsSucceed(states[j], steps[j])
    ensures P.Run(cfg, n, Map(AbsOf(), states), steps)
  {
    var abs := Map(AbsOf(), states);
    forall i | 0 <= i < |steps|
      ensures P.CanStep(abs[i], steps[i]) && abs[i + 1] == P.Next(cfg, abs[i], steps[i])
    {
      RunInv(cfg, n, states, steps, junk, i);
      assert CanStep(states[i], steps[i]) && ReadsSucceed(states[i], steps[i]);
      StepSimulates(cfg, n, states[i], steps[i], junk[i]);
    }
  }

  /** The coroutine server echoes as the event loop does. */
  lemma CoroutineEchoIntegrity(
      cfg: Config, n: nat, states: seq<System>, steps: seq<P.Step>, junk: seq<Promise>, i: nat, fd: nat)
    requires Run(cfg, n, states, steps, junk) && i < |states| && !states[i].v.Stopped()
    requires forall j :: 0 <= j < |steps| ==> ReadsSucceed(states[j], steps[j])
    ensures var k, pending := states[i].k, T.InFlight(Abs(states[i]).v.sq, Abs(states[i]).k, fd);
            && k.Due(fd) == Whole(k.Trail(fd)) + pending && k.Sent(fd) == Kept(k.Trail(fd))
            && (k.Due(fd) == k.Sent(fd) + pending <==> k.Lost(fd) == 0)
            && |k.Due(fd)| == |k.Sent(fd)| + |pending| + k.Lost(fd)
            && (fd !in states[i].v.connections ==> pending == [])
  {
    CoroutineRefinesLoop(cfg, n, states, steps, junk);
    T.EchoIntegrity(cfg, n, Map(AbsOf(), states), steps, i, fd);
  }

  // ----- Where the two servers part -----

  lemma FailedSize(res: int)
    requires -0x8000_0000 <= res < 0
    ensures ToSize(res) > 0 && ToLength(ToSize(res)) == 0x1_0000_0000 + res
  {
    assert ToSize(res) == 0x1_0000_0000_0000_0000 + res;
    assert 0x1_0000_0000_0000_0000 + res == 0x1_0000_0000 * 0xFFFF_FFFF + (0x1_0000_0000 + res);
  }

  /** A failed read is taken for a huge success: a send is queued where the event loop returns the buffer. */
  lemma FailedReadIsSent(cfg: Config, v: Server, c: Cqe, junk: Promise)
    requires !v.Stopped() && FramesOk(v) && |v.sq| < cfg.entries
    requires c.data.kind.READ? && CqeServed(v, c) && -0x8000_0000 <= c.res < 0 && !c.OutOfBuffers()
    ensures Handle(cfg, v, c, junk).sq == v.sq + [WriteOf(c.data.fd, c.SelectedBuffer(), ToSize(c.res))]
  {
    assert Connected(v, c.data.fd);
    FailedSize(c.res);
    DeliverBytes(cfg, v, c.data.fd, c.SelectedBuffer(), ToSize(c.res));
  }

  lemma LoopEndsFailedRead(cfg: Config, v: L.Server, c: Cqe)
    requires !v.Stopped() && |v.sq| < cfg.entries && c.data.kind.READ? && c.res < 0 && !c.OutOfBuffers()
    ensures L.Handle(cfg, v, c).sq == v.sq + [L.ProvideSqe(c.SelectedBuffer())]
  {
  }

  /** `size_r <= 0` on a `size_t` is true of 0 alone. With room in the queue, the two servers answer a completion
      alike exactly when it is not a failed read: that one the coroutine takes for a huge success and queues a send. */
  lemma AgreesIffReadSucceeds(cfg: Config, n: nat, s: System, junk: Promise)
    requires Inv(n, s) && CanStep(s, P.HandleNext) && |s.v.sq| < cfg.entries
    requires -0x8000_0000 <= s.k.cq[0].res
    ensures P.CanStep(Abs(s), P.HandleNext)
    ensures Abs(Next(cfg, s, P.HandleNext, junk)) == P.Next(cfg, Abs(s), P.HandleNext) <==> ReadsSucceed(s, P.HandleNext)
    ensures !ReadsSucceed(s, P.HandleNext) ==>
      var c, sq := s.k.cq[0], Next(cfg, s, P.HandleNext, junk).v.sq;
      sq != [] && sq[|sq| - 1].op == Send(c.data.fd, c.SelectedBuffer(), 0x1_0000_0000 + c.res)
  {
    if ReadsSucceed(s, P.HandleNext) {
      HandleSimulates(cfg, n, s, junk);
    } else {
      var c := s.k.cq[0];
      assert c in s.k.cq && CqeServed(s.v, c);
      FailedReadIsSent(cfg, s.v, c, junk);
      FailedSize(c.res);
      LoopEndsFailedRead(cfg, AbsServer(s.v), NormCqe()(c));
      var sq' := Next(cfg, s, P.HandleNext, junk).v.sq;
      assert Abs(Next(cfg, s, P.HandleNext, junk)).v.sq[|s.v.sq|].op == sq'[|s.v.sq|].op;
      assert P.Next(cfg, Abs(s), P.HandleNext).v.sq[|s.v.sq|] == L.ProvideSqe(c.SelectedBuffer());
    }
  }
}
