/** The bound on the submission queue of the web server is tight: with one entry less than `l + 2` some run with at most
    `l` connections overfills it. */
module WebQueue {
  import opened Sums
  import opened Options
  import opened Uring
  import opened WebServer
  import opened WebProtocol
  import opened Streams
  import P = EchoProtocol
  import T = WebTheorems
  import E = EchoQueue
  import W = WebFiles
  import F = FileService
  import H = HttpConn
  import Q = HttpRequest

  /** What new promises are placed on. */
  const JUNK: Promise := Promise(ConnInfo(0, READ, 0), 0)

  /** `states` is a run to `s` with at most `l` connections at once. */
  ghost predicate RunTo(cfg: Config, n: nat, l: nat, states: seq<System>, steps: seq<P.Step>, junk: seq<Promise>, s: System) {
    && Run(cfg, n, states, steps, junk) && states[|steps|] == s
    && forall j :: 0 <= j < |states| ==> |states[j].v.connections| <= l
  }

  ghost predicate Reach(cfg: Config, n: nat, l: nat, s: System) {
    exists states, steps, junk :: RunTo(cfg, n, l, states, steps, junk, s)
  }

  lemma ReachedInv(cfg: Config, n: nat, l: nat, s: System)
    requires Reach(cfg, n, l, s) && !s.v.Stopped()
    ensures Inv(cfg, n, s)
  {
    var states, steps, junk :| RunTo(cfg, n, l, states, steps, junk, s);
    RunInv(cfg, n, states, steps, junk, |steps|);
  }

  lemma ReachedFew(cfg: Config, n: nat, l: nat, s: System)
    requires Reach(cfg, n, l, s)
    ensures |s.v.connections| <= l && (!s.v.Stopped() ==> BuffersSized(n, s.k.bufs) && s.v.bufs == s.k.bufs)
  {
    var states, steps, junk :| RunTo(cfg, n, l, states, steps, junk, s);
    if !s.v.Stopped() { ReachedInv(cfg, n, l, s); }
  }

  lemma Extended<A>(s: seq<A>, x: A)
    ensures |s + [x]| == |s| + 1 && (s + [x])[|s|] == x && forall i :: 0 <= i < |s| ==> (s + [x])[i] == s[i]
  {
  }

  lemma RunGoesOn(cfg: Config, n: nat, states: seq<System>, steps: seq<P.Step>, junk: seq<Promise>, step: P.Step, s': System)
    requires Run(cfg, n, states, steps, junk)
    requires CanStep(states[|steps|], step) && ReadsServable(cfg, states[|steps|], step)
    requires s' == Next(cfg, states[|steps|], step, JUNK)
    ensures Run(cfg, n, states + [s'], steps + [step], junk + [JUNK])
  {
    var states', steps', junk' := states + [s'], steps + [step], junk + [JUNK];
    Extended(states, s');
    Extended(steps, step);
    Extended(junk, JUNK);
    forall i | 0 <= i < |steps'|
      ensures CanStep(states'[i], steps'[i]) && ReadsServable(cfg, states'[i], steps'[i])
      ensures states'[i + 1] == Next(cfg, states'[i], steps'[i], junk'[i])
    {
      if i < |steps| { assert CanStep(states[i], steps[i]) && ReadsServable(cfg, states[i], steps[i]); }
    }
  }

  lemma Go(cfg: Config, n: nat, l: nat, s: System, step: P.Step) returns (s': System)
    requires Reach(cfg, n, l, s) && CanStep(s, step) && ReadsServable(cfg, s, step)
    requires |Next(cfg, s, step, JUNK).v.connections| <= l
    ensures s' == Next(cfg, s, step, JUNK) && Reach(cfg, n, l, s')
  {
    s' := Next(cfg, s, step, JUNK);
    var states, steps, junk :| RunTo(cfg, n, l, states, steps, junk, s);
    RunGoesOn(cfg, n, states, steps, junk, step, s');
    assert RunTo(cfg, n, l, states + [s'], steps + [step], junk + [JUNK], s');
  }

  // ----- One read -----

  /** A request of one letter can be answered. */
  lemma LetterIsAnswerable(fs: F.FileSystem, buf: Bytes)
    requires |buf| == MAX_MESSAGE_LEN && buf[0] == 'x'
    ensures H.Answerable(fs, W.RequestIn(buf, 1))
  {
    var b := Terminated(buf, 1);
    assert b[0] == 'x' && b[1] == '\0';
    assert Q.CString(b) == "x";
    assert H.LineOf(b) == "x";
    assert Q.NextToken("x").value.text == "x";
  }

  /** A connection waits for bytes, and there is a buffer for it. */
  predicate CanRead(s: System, bid: nat) {
    !s.v.Stopped() && s.k.cq == [] && s.k.armed != [] && E.WaitsForBytes(s.k.armed[0]) && bid in s.k.pool
  }

  lemma Choose(cfg: Config, n: nat, l: nat, s: System, bid: nat) returns (s': System)
    requires Reach(cfg, n, l, s) && CanRead(s, bid)
    ensures Reach(cfg, n, l, s') && s'.v == s.v.(bufs := s.k.bufs) && s'.phase == s.phase
    ensures s'.k == s.k.(armed := s.k.armed[0 := s.k.armed[0].(held := Some(bid))], pool := s.k.pool - {bid})
  {
    ReachedFew(cfg, n, l, s);
    s' := Go(cfg, n, l, s, P.Internal(Select(0, bid)));
  }

  /** One letter arrives in buffer `bid`. */
  lemma Arrive(cfg: Config, n: nat, l: nat, s: System, bid: nat) returns (s': System)
    requires Reach(cfg, n, l, s) && CanRead(s, bid) && bid < n
    ensures Reach(cfg, n, l, s') && s'.phase == s.phase && s'.v == s.v.(bufs := s'.k.bufs)
    ensures s'.k.cq == [Cqe(s.k.armed[0].data, 1, BufferFlags(bid))] && s'.k.armed == s.k.armed[1..]
    ensures s'.k.pool == s.k.pool - {bid} && s'.k.open == s.k.open
    ensures BuffersSized(n, s'.k.bufs) && s'.k.bufs[bid][0] == 'x'
  {
    var s1 := Choose(cfg, n, l, s, bid);
    ReachedFew(cfg, n, l, s1);
    assert Without(s1.k.armed, 0) == s.k.armed[1..];
    s' := Go(cfg, n, l, s1, P.Internal(RecvDone(0, "x")));
  }

  lemma LetterIsServable(cfg: Config, fs: F.FileSystem, n: nat, s: System, bid: nat)
    requires ServesFiles(cfg, fs) && s.k.cq != [] && BuffersSized(n, s.v.bufs)
    requires s.k.cq[0].flags == BufferFlags(bid) && s.k.cq[0].res == 1 && bid < n && s.v.bufs[bid][0] == 'x'
    ensures ReadsServable(cfg, s, P.HandleNext)
  {
    W.ServableIffAnswerable(cfg, fs, s.v.bufs, bid, 1);
    LetterIsAnswerable(fs, s.v.bufs[bid]);
  }

  predicate Responds(e: Sqe) { e.op.Send? && e.data.kind.WRITE? }

  lemma LetterAnswered(cfg: Config, n: nat, s: System, s': System)
    requires Inv(cfg, n, s) && CanStep(s, P.HandleNext) && ReadsServable(cfg, s, P.HandleNext)
    requires s.k.cq[0].data.kind.READ? && !s.k.cq[0].OutOfBuffers() && s' == Next(cfg, s, P.HandleNext, JUNK)
    ensures s'.v.connections == s.v.connections
    ensures if |s.v.sq| + 1 > cfg.entries then s'.v.faulted
            else && !s'.v.Stopped() && |s'.v.sq| == |s.v.sq| + 1
                 && s'.v.sq[..|s.v.sq|] == s.v.sq && Responds(s'.v.sq[|s.v.sq|])
                 && s'.k.armed == s.k.armed && s'.k.cq == s.k.cq[1..] && s'.k.pool == s.k.pool && s'.k.open == s.k.open
  {
    ReadHasEffect(cfg, n, s, JUNK);
    T.FaultedIffFull(cfg, n, s, JUNK);
    assert s.k.cq[0] in s.k.cq && CqeServed(s.v, s.k.cq[0]);
    ReadGoesOn(cfg, s, JUNK);
  }

  /** The letter is answered, or there is no room for the answer. */
  lemma Answer(cfg: Config, fs: F.FileSystem, n: nat, l: nat, s: System, bid: nat) returns (s': System)
    requires Reach(cfg, n, l, s) && CanStep(s, P.HandleNext) && ServesFiles(cfg, fs)
    requires s.k.cq[0].data.kind.READ? && s.k.cq[0].res == 1 && s.k.cq[0].flags == BufferFlags(bid) && bid < n
    requires BuffersSized(n, s.v.bufs) && s.v.bufs[bid][0] == 'x'
    ensures Reach(cfg, n, l, s') && s'.v.connections == s.v.connections
    ensures if |s.v.sq| + 1 > cfg.entries then s'.v.faulted
            else && !s'.v.Stopped() && s'.phase.Handling? && |s'.v.sq| == |s.v.sq| + 1
                 && s'.v.sq[..|s.v.sq|] == s.v.sq && Responds(s'.v.sq[|s.v.sq|])
                 && s'.k.armed == s.k.armed && s'.k.cq == s.k.cq[1..] && s'.k.pool == s.k.pool && s'.k.open == s.k.open
  {
    ReachedFew(cfg, n, l, s);
    LetterIsServable(cfg, fs, n, s, bid);
    ReachedInv(cfg, n, l, s);
    LetterAnswered(cfg, n, s, Next(cfg, s, P.HandleNext, JUNK));
    s' := Go(cfg, n, l, s, P.HandleNext);
  }

  lemma ReadGoesOn(cfg: Config, s: System, junk: Promise)
    requires CanStep(s, P.HandleNext) && s.k.cq[0].data.kind.READ? && !s.k.cq[0].OutOfBuffers()
    requires At(s.v, s.k.cq[0].data.fd, AtRead)
    ensures var v' := Handle(cfg, s.v, s.k.cq[0], junk); !v'.exited && v'.connections == s.v.connections
  {
  }

  // ----- Connections come in -----

  predicate Idle(s: System) { !s.v.Stopped() && s.phase.Submitting? && s.v.sq == [] && s.k.cq == [] }

  /** `k` connections wait for bytes, and the last operation armed is the accept. */
  ghost predicate Accepted(n: nat, s: System, k: nat) {
    && Idle(s) && |s.k.armed| == k + 1 && E.Listens(s.k.armed[k])
    && (forall i :: 0 <= i < k ==> E.WaitsForBytes(s.k.armed[i]))
    && (forall fd :: fd in s.k.open || fd in s.v.connections ==> fd < k) && |s.v.connections| == k
    && s.k.pool == BufferIds(n)
  }

  lemma Start(cfg: Config, n: nat, l: nat) returns (s: System)
    requires cfg.entries > 0
    ensures Reach(cfg, n, l, s) && Accepted(n, s, 0)
  {
    var buf: Bytes := seq(MAX_MESSAGE_LEN, _ => '\0');
    var bufs: seq<Bytes> := seq(n, _ => buf);
    s := System(Boot(cfg, bufs), Kernel([], [], BufferIds(n), bufs, {}, map[], map[]), P.Submitting);
    assert Initial(cfg, n, s);
    assert RunTo(cfg, n, l, [s], [], [], s);
    s := Go(cfg, n, l, s, P.Submit);
  }

  /** A new connection completes the accept, whose completion is then next. */
  lemma Knock(cfg: Config, n: nat, l: nat, s: System, i: nat, fd: nat) returns (s': System)
    requires Reach(cfg, n, l, s) && !s.v.Stopped() && s.phase.Handling? && s.k.cq == []
    requires i < |s.k.armed| && E.Listens(s.k.armed[i]) && fd !in s.k.open
    ensures Reach(cfg, n, l, s') && CanStep(s', P.HandleNext) && s'.v == s.v && s'.phase == s.phase
    ensures s'.k.cq == [Cqe(s.k.armed[i].data, fd, 0)] && s'.k.armed == Without(s.k.armed, i)
    ensures s'.k.open == s.k.open + {fd} && s'.k.pool == s.k.pool
  {
    ReachedFew(cfg, n, l, s);
    s' := Go(cfg, n, l, s, P.Internal(AcceptDone(i, fd)));
  }

  lemma Adopted(cfg: Config, n: nat, s: System, s': System)
    requires Inv(cfg, n, s) && CanStep(s, P.HandleNext) && P.Opens(s.k.cq[0]) && s' == Next(cfg, s, P.HandleNext, JUNK)
    ensures |s'.v.connections| == |s.v.connections| + 1
    ensures var fd := s.k.cq[0].res;
            if |s.v.sq| + 2 > cfg.entries then s'.v.faulted
            else && !s'.v.Stopped() && s'.v.sq == s.v.sq + [RecvSqe(fd, 0), AcceptSqe(cfg)]
                 && s'.v.connections.Keys == s.v.connections.Keys + {fd}
                 && s'.k == P.Reap(s.k)
  {
    var c := s.k.cq[0];
    assert c in s.k.cq;
    AnnouncedIsNotLive(n, s.v.sq, s.k, s.v.connections.Keys, c);
    T.AcceptFault(cfg, s.v, c, JUNK);
    AcceptDelivered(cfg, s.v, c, JUNK);
    AcceptGoesOn(cfg, s.v, c, JUNK);
  }

  /** The connection is adopted, or there is no room for the two entries that takes. */
  lemma Adopt(cfg: Config, n: nat, l: nat, s: System) returns (s': System)
    requires Reach(cfg, n, l, s) && CanStep(s, P.HandleNext) && P.Opens(s.k.cq[0])
    requires |s.v.connections| < l
    ensures Reach(cfg, n, l, s')
    ensures var fd := s.k.cq[0].res;
            if |s.v.sq| + 2 > cfg.entries then s'.v.faulted
            else && !s'.v.Stopped() && s'.v.sq == s.v.sq + [RecvSqe(fd, 0), AcceptSqe(cfg)] && s'.phase.Handling?
                 && |s'.v.connections| == |s.v.connections| + 1 && s'.v.connections.Keys == s.v.connections.Keys + {fd}
                 && s'.k == P.Reap(s.k)
  {
    ReachedInv(cfg, n, l, s);
    Adopted(cfg, n, s, Next(cfg, s, P.HandleNext, JUNK));
    s' := Go(cfg, n, l, s, P.HandleNext);
  }

  lemma AcceptGoesOn(cfg: Config, v: Server, c: Cqe, junk: Promise)
    requires !v.Stopped() && P.Opens(c) && c.res !in v.connections
    ensures var v' := Handle(cfg, v, c, junk); !v'.exited && v'.connections == v.connections[c.res := |v.frames|]
  {
  }

  /** What was queued is submitted. */
  lemma SubmitTwo(cfg: Config, n: nat, l: nat, s: System, e: Sqe, f: Sqe) returns (s': System)
    requires Reach(cfg, n, l, s) && !s.v.Stopped() && s.phase.Submitting? && s.v.sq == [e, f]
    requires !e.op.Provide? && !f.op.Provide?
    ensures Reach(cfg, n, l, s') && s'.v == s.v.(sq := []) && s'.phase == s.phase
    ensures s'.k == s.k.(armed := s.k.armed + [Arm(e), Arm(f)])
  {
    ReachedFew(cfg, n, l, s);
    s' := Go(cfg, n, l, s, P.Submit);
    s' := Go(cfg, n, l, s', P.Submit);
    assert s.k.armed + [Arm(e)] + [Arm(f)] == s.k.armed + [Arm(e), Arm(f)];
  }

  /** One more connection is accepted and adopted, and its first entries are queued. */
  lemma AcceptNext(cfg: Config, n: nat, l: nat, s: System, k: nat, live: set<nat>) returns (s': System)
    requires Reach(cfg, n, l, s) && Idle(s) && |s.k.armed| == k + 1 && E.Listens(s.k.armed[k]) && k !in s.k.open
    requires s.v.connections.Keys == live && |s.v.connections| < l && cfg.entries >= 2
    ensures Reach(cfg, n, l, s') && !s'.v.Stopped() && s'.phase.Submitting? && s'.v.sq == [RecvSqe(k, 0), AcceptSqe(cfg)]
    ensures |s'.v.connections| == |s.v.connections| + 1 && s'.v.connections.Keys == live + {k}
    ensures s'.k.armed == s.k.armed[..k] && s'.k.cq == [] && s'.k.open == s.k.open + {k} && s'.k.pool == s.k.pool
  {
    var s1 := WakeUp(cfg, n, l, s);
    s1 := Knock(cfg, n, l, s1, k, k);
    assert Without(s.k.armed, k) == s.k.armed[..k];
    s1 := Adopt(cfg, n, l, s1);
    s' := FallAsleep(cfg, n, l, s1);
  }

  lemma AcceptOne(cfg: Config, n: nat, l: nat, s: System, k: nat) returns (s': System)
    requires Reach(cfg, n, l, s) && Accepted(n, s, k) && k < l && cfg.entries >= 2
    ensures Reach(cfg, n, l, s') && Accepted(n, s', k + 1)
  {
    var s1 := AcceptNext(cfg, n, l, s, k, s.v.connections.Keys);
    s' := SubmitTwo(cfg, n, l, s1, RecvSqe(k, 0), AcceptSqe(cfg));
    OneMoreAccepted(cfg, n, s, k, s');
  }

  lemma OneMoreAccepted(cfg: Config, n: nat, s: System, k: nat, s': System)
    requires Accepted(n, s, k) && Idle(s') && s'.k.pool == s.k.pool && s'.k.open == s.k.open + {k}
    requires s'.k.armed == s.k.armed[..k] + [Arm(RecvSqe(k, 0)), Arm(AcceptSqe(cfg))]
    requires |s'.v.connections| == k + 1 && s'.v.connections.Keys == s.v.connections.Keys + {k}
    ensures Accepted(n, s', k + 1)
  {
    KnownBelow(s.v.connections, s'.v.connections, k);
    forall i | 0 <= i < k + 1 ensures E.WaitsForBytes(s'.k.armed[i]) {
      if i < k { assert s'.k.armed[i] == s.k.armed[i]; }
    }
  }

  lemma KnownBelow(a: map<nat, nat>, b: map<nat, nat>, k: nat)
    requires b.Keys == a.Keys + {k} && forall fd :: fd in a ==> fd < k
    ensures forall fd :: fd in b ==> fd < k + 1
  {
    assert forall fd :: fd in b ==> fd in b.Keys;
  }

  lemma SomeAccepted(cfg: Config, n: nat, l: nat, m: nat) returns (s: System)
    requires cfg.entries >= 2 && m <= l
    ensures Reach(cfg, n, l, s) && Accepted(n, s, m)
  {
    s := Start(cfg, n, l);
    for k := 0 to m
      invariant Reach(cfg, n, l, s) && Accepted(n, s, k)
    {
      s := AcceptOne(cfg, n, l, s, k);
    }
  }

  /** A queue of one entry has no room for the reply to the first connection. */
  lemma FirstFaults(cfg: Config, n: nat, l: nat) returns (s: System)
    requires cfg.entries == 1 && l > 0
    ensures Reach(cfg, n, l, s) && s.v.faulted
  {
    s := Start(cfg, n, l);
    s := Go(cfg, n, l, s, P.Wake);
    s := Knock(cfg, n, l, s, 0, 0);
    s := Adopt(cfg, n, l, s);
  }

  // ----- The pass that overfills the queue -----

  /** The last of `m` connections is being sent its response; the others wait for bytes. */
  ghost predicate Serving(n: nat, s: System, m: nat) {
    && 0 < m && Idle(s) && |s.k.armed| == m + 1 && E.Listens(s.k.armed[m - 1]) && E.Writes(s.k.armed[m])
    && (forall i :: 0 <= i < m - 1 ==> E.WaitsForBytes(s.k.armed[i]))
    && m !in s.k.open && |s.v.connections| == m && (forall b :: 0 < b < n ==> b in s.k.pool)
  }

  /** The connection that waits first sends a letter, and the answer is queued. */
  lemma AnswerFirst(cfg: Config, fs: F.FileSystem, n: nat, l: nat, s: System) returns (s': System)
    requires Reach(cfg, n, l, s) && Idle(s) && CanRead(s, 0) && 0 < n && cfg.entries > 0 && ServesFiles(cfg, fs)
    ensures Reach(cfg, n, l, s') && !s'.v.Stopped() && s'.phase.Submitting? && s'.v.connections == s.v.connections
    ensures |s'.v.sq| == 1 && Responds(s'.v.sq[0])
    ensures s'.k.armed == s.k.armed[1..] && s'.k.cq == [] && s'.k.pool == s.k.pool - {0} && s'.k.open == s.k.open
  {
    var s1 := Arrive(cfg, n, l, s, 0);
    s1 := WakeUp(cfg, n, l, s1);
    s1 := Answer(cfg, fs, n, l, s1, 0);
    s' := FallAsleep(cfg, n, l, s1);
  }

  lemma WakeUp(cfg: Config, n: nat, l: nat, s: System) returns (s': System)
    requires Reach(cfg, n, l, s) && !s.v.Stopped() && s.phase.Submitting? && s.v.sq == []
    ensures Reach(cfg, n, l, s') && s'.v == s.v && s'.k == s.k && s'.phase.Handling?
  {
    ReachedFew(cfg, n, l, s);
    s' := Go(cfg, n, l, s, P.Wake);
  }

  lemma FallAsleep(cfg: Config, n: nat, l: nat, s: System) returns (s': System)
    requires Reach(cfg, n, l, s) && !s.v.Stopped() && s.phase.Handling? && s.k.cq == []
    ensures Reach(cfg, n, l, s') && s'.v == s.v && s'.k == s.k && s'.phase.Submitting?
  {
    ReachedFew(cfg, n, l, s);
    s' := Go(cfg, n, l, s, P.Sleep);
  }

  lemma ServeFirst(cfg: Config, fs: F.FileSystem, n: nat, l: nat, s: System, m: nat) returns (s': System)
    requires Reach(cfg, n, l, s) && Accepted(n, s, m) && 0 < m && 0 < n && cfg.entries > 0 && ServesFiles(cfg, fs)
    ensures Reach(cfg, n, l, s') && Serving(n, s', m)
  {
    var s1 := AnswerFirst(cfg, fs, n, l, s);
    s' := Go(cfg, n, l, s1, P.Submit);
  }

  lemma FinishEffect(cfg: Config, n: nat, s: System, s': System)
    requires Inv(cfg, n, s) && CanStep(s, P.HandleNext) && s.k.cq[0].data.kind.WRITE? && !s.k.cq[0].OutOfBuffers()
    requires s' == Next(cfg, s, P.HandleNext, JUNK) && |s.v.sq| < cfg.entries
    ensures !s'.v.Stopped() && |s'.v.sq| == |s.v.sq| + 1 && |s'.v.connections| == |s.v.connections| - 1
    ensures s'.k.open <= s.k.open && s'.k.armed == s.k.armed && s'.k.cq == s.k.cq[1..] && s'.k.pool == s.k.pool
  {
    var c := s.k.cq[0];
    WriteIsServed(cfg, n, s);
    WriteFinishes(cfg, s.v, c);
  }

  lemma WriteIsServed(cfg: Config, n: nat, s: System)
    requires Inv(cfg, n, s) && CanStep(s, P.HandleNext) && s.k.cq[0].data.kind.WRITE?
    ensures At(s.v, s.k.cq[0].data.fd, AtWrite) && Connected(s.v, s.k.cq[0].data.fd)
  {
    assert s.k.cq[0] in s.k.cq && CqeServed(s.v, s.k.cq[0]);
  }

  lemma WriteFinishes(cfg: Config, v: Server, c: Cqe)
    requires !v.Stopped() && c.data.kind.WRITE? && !c.OutOfBuffers() && |v.sq| < cfg.entries
    requires At(v, c.data.fd, AtWrite) && Connected(v, c.data.fd)
    ensures var v' := Handle(cfg, v, c, JUNK);
            !v'.Stopped() && |v'.sq| == |v.sq| + 1 && |v'.connections| == |v.connections| - 1
  {
    WriteDelivered(cfg, v, c, JUNK);
    T.WriteFault(cfg, v, c, JUNK);
    WriteGoesOn(cfg, v, c, JUNK);
    OneLess(v.connections, c.data.fd);
  }

  lemma OneLess(m: map<nat, nat>, fd: nat)
    requires fd in m
    ensures |m - {fd}| == |m| - 1
  {
    assert (m - {fd}).Keys == m.Keys - {fd};
    assert |(m - {fd}).Keys| == |m - {fd}| && |m.Keys| == |m|;
  }

  lemma FinishReached(cfg: Config, n: nat, l: nat, s: System, s': System)
    requires Reach(cfg, n, l, s) && CanStep(s, P.HandleNext) && s.k.cq[0].data.kind.WRITE? && !s.k.cq[0].OutOfBuffers()
    requires s' == Next(cfg, s, P.HandleNext, JUNK) && |s.v.sq| < cfg.entries
    ensures !s'.v.Stopped() && |s'.v.sq| == |s.v.sq| + 1 && |s'.v.connections| == |s.v.connections| - 1
    ensures s'.k.open <= s.k.open && s'.k.armed == s.k.armed && s'.k.cq == s.k.cq[1..] && s'.k.pool == s.k.pool
  {
    ReachedInv(cfg, n, l, s);
    FinishEffect(cfg, n, s, s');
  }

  lemma WriteGoesOn(cfg: Config, v: Server, c: Cqe, junk: Promise)
    requires !v.Stopped() && c.data.kind.WRITE? && !c.OutOfBuffers()
    ensures !Handle(cfg, v, c, junk).exited
  {
  }

  /** The send fails. */
  lemma FailSend(cfg: Config, n: nat, l: nat, s: System, i: nat) returns (s': System)
    requires Reach(cfg, n, l, s) && !s.v.Stopped() && s.phase.Handling? && s.k.cq == []
    requires i < |s.k.armed| && E.Writes(s.k.armed[i])
    ensures Reach(cfg, n, l, s') && s'.v == s.v && s'.phase == s.phase
    ensures s'.k.cq == [Cqe(s.k.armed[i].data, -1, 0)] && s'.k.armed == Without(s.k.armed, i)
    ensures s'.k.pool == s.k.pool && s'.k.open == s.k.open
  {
    ReachedFew(cfg, n, l, s);
    s' := Go(cfg, n, l, s, P.Internal(SendDone(i, -1)));
  }

  /** The send fails; its connection ends. */
  lemma Finish(cfg: Config, n: nat, l: nat, s: System, i: nat) returns (s': System)
    requires Reach(cfg, n, l, s) && !s.v.Stopped() && s.phase.Handling? && s.k.cq == []
    requires i < |s.k.armed| && E.Writes(s.k.armed[i]) && |s.v.sq| < cfg.entries
    ensures Reach(cfg, n, l, s') && !s'.v.Stopped() && s'.phase.Handling?
    ensures |s'.v.sq| == |s.v.sq| + 1 && |s'.v.connections| == |s.v.connections| - 1
    ensures s'.k.open <= s.k.open && s'.k.armed == Without(s.k.armed, i) && s'.k.cq == [] && s'.k.pool == s.k.pool
  {
    var s1 := FailSend(cfg, n, l, s, i);
    ReachedFew(cfg, n, l, s1);
    FinishReached(cfg, n, l, s1, Next(cfg, s1, P.HandleNext, JUNK));
    s' := Go(cfg, n, l, s1, P.HandleNext);
  }

  /** In one pass a connection ended, another was adopted, and `k` of the `m - 1` that wait were answered. */
  ghost predicate Draining(n: nat, s: System, m: nat, k: nat) {
    && k < m && !s.v.Stopped() && s.phase.Handling? && s.k.cq == [] && |s.v.sq| == 3 + k
    && |s.k.armed| == m - 1 - k && (forall i :: 0 <= i < m - 1 - k ==> E.WaitsForBytes(s.k.armed[i]))
    && (forall b :: k < b < n ==> b in s.k.pool)
  }

  lemma DrainOne(cfg: Config, fs: F.FileSystem, n: nat, l: nat, s: System, m: nat, k: nat) returns (s': System)
    requires Reach(cfg, n, l, s) && Draining(n, s, m, k) && k + 1 < m <= n && ServesFiles(cfg, fs)
    ensures Reach(cfg, n, l, s')
    ensures if 4 + k <= cfg.entries then Draining(n, s', m, k + 1) else s'.v.faulted
  {
    var s1 := Arrive(cfg, n, l, s, k + 1);
    s' := Answer(cfg, fs, n, l, s1, k + 1);
  }

  lemma WithoutLast(s: seq<Armed>, i: nat)
    requires |s| == i + 1
    ensures Without(s, i) == s[..i]
  {
  }

  /** The pass begins: the connection that was sent its response ends. */
  lemma EndLast(cfg: Config, n: nat, l: nat, s: System, m: nat) returns (s': System)
    requires Reach(cfg, n, l, s) && Serving(n, s, m) && m <= l && cfg.entries > 0
    ensures Reach(cfg, n, l, s') && !s'.v.Stopped() && s'.phase.Handling? && s'.k.cq == []
    ensures |s'.v.sq| == 1 && |s'.v.connections| == m - 1 && m !in s'.k.open
    ensures s'.k.armed == s.k.armed[..m] && s'.k.pool == s.k.pool
  {
    var s1 := WakeUp(cfg, n, l, s);
    s' := Finish(cfg, n, l, s1, m);
    WithoutLast(s.k.armed, m);
  }

  /** Another connection is adopted in its place, unless there is no room. */
  lemma Replace(cfg: Config, n: nat, l: nat, s: System, m: nat) returns (s': System)
    requires Reach(cfg, n, l, s) && Serving(n, s, m) && m <= l && cfg.entries > 0
    ensures Reach(cfg, n, l, s')
    ensures if 3 <= cfg.entries then Draining(n, s', m, 0) else s'.v.faulted
  {
    var s1 := EndLast(cfg, n, l, s, m);
    WithoutLast(s1.k.armed, m - 1);
    s1 := Knock(cfg, n, l, s1, m - 1, m);
    s' := Adopt(cfg, n, l, s1);
  }

  /** With fewer than `l + 2` entries, some run with at most `l` connections overfills the queue. */
  lemma QueueCanOverfill(cfg: Config, fs: F.FileSystem, n: nat, l: nat) returns (s: System)
    requires 0 < cfg.entries < l + 2 && 0 < l <= n && ServesFiles(cfg, fs)
    ensures Reach(cfg, n, l, s) && s.v.faulted
  {
    if cfg.entries == 1 {
      s := FirstFaults(cfg, n, l);
    } else {
      var m := cfg.entries - 1;
      s := SomeAccepted(cfg, n, l, m);
      s := ServeFirst(cfg, fs, n, l, s, m);
      s := Replace(cfg, n, l, s, m);
      var k := 0;
      while k + 1 < m && !s.v.faulted
        invariant k < m && Reach(cfg, n, l, s) && (s.v.faulted || (3 + k <= cfg.entries && Draining(n, s, m, k)))
        decreases m - k, !s.v.faulted
      {
        s := DrainOne(cfg, fs, n, l, s, m, k);
        if !s.v.faulted { k := k + 1; }
      }
    }
  }

  /** Exactly how many entries `l` connections need, when there are buffers for all of them. */
  lemma OverfillsIff(cfg: Config, fs: F.FileSystem, n: nat, l: nat)
    requires cfg.entries > 0 && 0 < l <= n && ServesFiles(cfg, fs)
    ensures (exists s :: Reach(cfg, n, l, s) && s.v.faulted) <==> cfg.entries < l + 2
  {
    if cfg.entries < l + 2 {
      var s := QueueCanOverfill(cfg, fs, n, l);
    }
    if s :| Reach(cfg, n, l, s) && s.v.faulted && cfg.entries >= l + 2 {
      var states, steps, junk :| RunTo(cfg, n, l, states, steps, junk, s);
      T.WebQueueNeverOverfills(cfg, n, states, steps, junk, l, |steps|);
    }
  }
}
