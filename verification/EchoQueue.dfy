/** How large the submission queue of the echo server has to be: with at most `l` connections live at once `2 * l + 1`
    entries suffice in every run, and with one entry less some run overfills it. */
module EchoQueue {
  import opened Sums
  import opened Options
  import opened Uring
  import opened EchoLoop
  import opened Accounts
  import opened Streams
  import opened EchoProtocol

  // ----- Enough room -----

  lemma {:induction false} SumMonotone<T>(s: seq<T>, w: T -> int, v: T -> int)
    requires forall x :: x in s ==> w(x) <= v(x)
    ensures Sum(s, w) <= Sum(s, v)
  {
    if s != [] {
      assert s[0] in s;
      SumMonotone(s[1..], w, v);
    }
  }

  lemma ListenersAreBusy(k: Kernel)
    ensures Total([], k, Listener) <= Total([], k, Busy) && 0 <= Total([], k, Busy)
  {
    SumMonotone(k.armed, OfArmed(Listener), OfArmed(Busy));
    SumMonotone(k.cq, OfCqe(Listener), OfCqe(Busy));
    SumsAtLeast([], k, Busy);
  }

  /** What the queue holds and what the unhandled operations can still add to it: two entries each, but one for the
      accept. A connection adopted meanwhile adds one more, and one that ended adds one less. */
  ghost predicate Tight(s: System) {
    s.phase.Handling? ==>
      |s.v.sq| + 2 * Total([], s.k, Busy) - Total([], s.k, Listener) <= s.phase.liveAtWake + |s.v.live| + 1
  }

  lemma ReplySize(cfg: Config, c: Cqe)
    requires !c.OutOfBuffers()
    ensures |Reply(cfg, c)| <= 2 * CqeWeight(Busy, c) - CqeWeight(Listener, c) + Bit(Opens(c)) - Bit(Ends(c))
  {
  }

  lemma ReapedWork(k: Kernel, w: Weight)
    requires k.cq != []
    ensures Total([], Reap(k), w) == Total([], k, w) - CqeWeight(w, k.cq[0])
  {
    assert Sum(k.cq, OfCqe(w)) == CqeWeight(w, k.cq[0]) + Sum(k.cq[1..], OfCqe(w));
  }

  /** The reply to a completion finds room when the connections live afterwards do. */
  lemma ReplyFits(cfg: Config, n: nat, s: System)
    requires Inv(n, s) && CanStep(s, HandleNext) && Tight(s) && !s.k.cq[0].OutOfBuffers()
    ensures |s.v.sq| + |Reply(cfg, s.k.cq[0])| <= s.phase.liveAtWake + |LiveAfter(s.v.live, s.k.cq[0])| + 1
    ensures |s.v.sq| + |Reply(cfg, s.k.cq[0])| + 2 * Total([], Reap(s.k), Busy) - Total([], Reap(s.k), Listener)
            <= s.phase.liveAtWake + |LiveAfter(s.v.live, s.k.cq[0])| + 1
  {
    var c := s.k.cq[0];
    ReplySize(cfg, c);
    OpensOrEnds(n, s.v.sq, s.k, s.v.live, multiset(s.v.shut));
    LiveCount(s.v.live, c);
    ReapedWork(s.k, Busy);
    ReapedWork(s.k, Listener);
    ListenersAreBusy(Reap(s.k));
  }

  /** The loop meets a full queue exactly when the reply does not fit. */
  lemma FaultIff(cfg: Config, v: Server, c: Cqe)
    requires !v.Stopped() && !c.OutOfBuffers()
    ensures Handle(cfg, v, c).faulted <==> Reply(cfg, c) != [] && |v.sq| + |Reply(cfg, c)| > cfg.entries
    ensures |LiveAfter(v.live, c)| <= |Handle(cfg, v, c).live|
  {
    if Ends(c) { assert v.live - {c.data.fd} <= v.live && |v.live - {c.data.fd}| <= |v.live|; }
  }

  lemma WakeKeepsTight(n: nat, s: System)
    requires Accounted(n, s.v.sq, s.k, s.v.live, multiset(s.v.shut)) && s.v.sq == []
    ensures Tight(s.(phase := Handling(0, |s.v.live|, |s.k.armed| + |s.k.cq|)))
  {
    assert Balanced(n, s.v.sq, s.k, s.v.live, multiset(s.v.shut), Busy);
    assert Balanced(n, s.v.sq, s.k, s.v.live, multiset(s.v.shut), Listener);
  }

  lemma InternalKeepsTight(s: System, t: KStep)
    requires Enabled(s.k, t) && TaggedArmed(s.k.armed[t.i]) && Tight(s)
    ensures Tight(s.(k := Apply(s.k, t)))
  {
    StepTotal([], s.k, t, Busy);
    StepTotal([], s.k, t, Listener);
  }

  lemma StepKeepsTight(cfg: Config, n: nat, s: System, step: Step)
    requires Inv(n, s) && CanStep(s, step) && Tight(s) && !Next(cfg, s, step).v.Stopped()
    ensures Tight(Next(cfg, s, step))
  {
    match step
    case Submit =>
    case Sleep =>
    case Wake => WakeKeepsTight(n, s);
    case Internal(t) =>
      assert s.k.armed[t.i] in s.k.armed;
      InternalKeepsTight(s, t);
    case HandleNext =>
      HandleEffect(cfg, s.v, s.k.cq[0]);
      ReplyFits(cfg, n, s);
  }

  lemma StepFits(cfg: Config, n: nat, s: System, step: Step, l: nat)
    requires Inv(n, s) && CanStep(s, step) && Tight(s) && 2 * l + 1 <= cfg.entries
    requires |Next(cfg, s, step).v.live| <= l && (s.phase.Handling? ==> s.phase.liveAtWake <= l)
    ensures !Next(cfg, s, step).v.faulted
  {
    if step.HandleNext? && !s.k.cq[0].OutOfBuffers() {
      ReplyFits(cfg, n, s);
      FaultIff(cfg, s.v, s.k.cq[0]);
    }
  }

  ghost predicate Roomy(s: System, l: nat) {
    !s.v.faulted && (s.v.Stopped() || Tight(s)) && (s.phase.Handling? ==> s.phase.liveAtWake <= l)
  }

  lemma StepKeepsRoom(cfg: Config, n: nat, s: System, step: Step, s': System, l: nat)
    requires Inv(n, s) && CanStep(s, step) && s' == Next(cfg, s, step) && Roomy(s, l)
    requires |s.v.live| <= l && |s'.v.live| <= l && 2 * l + 1 <= cfg.entries
    ensures Roomy(s', l)
  {
    StepFits(cfg, n, s, step, l);
    if !s'.v.Stopped() { StepKeepsTight(cfg, n, s, step); }
  }

  /** With at most `l` connections live at once and room for `2 * l + 1` entries, `io_uring_get_sqe` never fails. */
  lemma QueueNeverOverfills(cfg: Config, n: nat, states: seq<System>, steps: seq<Step>, l: nat, i: nat)
    requires Run(cfg, n, states, steps) && i < |states|
    requires 2 * l + 1 <= cfg.entries && forall j :: 0 <= j <= i ==> |states[j].v.live| <= l
    ensures !states[i].v.faulted
  {
    for j := 0 to i
      invariant Roomy(states[j], l)
    {
      RunInv(cfg, n, states, steps, j);
      StepKeepsRoom(cfg, n, states[j], steps[j], states[j + 1], l);
    }
  }

  // ----- Too little room -----

  /** `states` is a run to `s` with at most `l` connections live at once. */
  ghost predicate RunTo(cfg: Config, n: nat, l: nat, states: seq<System>, steps: seq<Step>, s: System) {
    && Run(cfg, n, states, steps) && states[|steps|] == s
    && forall j :: 0 <= j < |states| ==> |states[j].v.live| <= l
  }

  ghost predicate Reach(cfg: Config, n: nat, l: nat, s: System) {
    exists states, steps :: RunTo(cfg, n, l, states, steps, s)
  }

  lemma Go(cfg: Config, n: nat, l: nat, s: System, step: Step) returns (s': System)
    requires Reach(cfg, n, l, s) && CanStep(s, step) && |Next(cfg, s, step).v.live| <= l
    ensures s' == Next(cfg, s, step) && Reach(cfg, n, l, s')
  {
    s' := Next(cfg, s, step);
    var states, steps :| RunTo(cfg, n, l, states, steps, s);
    var states', steps' := states + [s'], steps + [step];
    forall i | 0 <= i < |steps'|
      ensures CanStep(states'[i], steps'[i]) && states'[i + 1] == Next(cfg, states'[i], steps'[i])
    {
      if i < |steps| { assert CanStep(states[i], steps[i]); }
    }
    assert RunTo(cfg, n, l, states', steps', s');
  }

  predicate Idle(s: System) { !s.v.Stopped() && s.phase.Submitting? && s.v.sq == [] && s.k.cq == [] }

  predicate WaitsForBytes(a: Armed) { a.Receiving? && a.held.None? && a.size == MAX_MESSAGE_LEN && a.data.kind.READ? }

  predicate Writes(a: Armed) { a.Sending? && a.done <= a.size && a.data.kind.WRITE? }

  predicate Listens(a: Armed) { a.Accepting? && a.data.kind.ACCEPT? }

  /** `k` connections wait for bytes, and the last operation armed is the accept. */
  ghost predicate Accepted(n: nat, s: System, k: nat) {
    && Idle(s) && |s.k.armed| == k + 1 && Listens(s.k.armed[k])
    && (forall i :: 0 <= i < k ==> WaitsForBytes(s.k.armed[i]))
    && (forall fd :: fd in s.k.open || fd in s.v.live ==> fd < k) && |s.v.live| == k
    && s.k.pool == BufferIds(n) && BuffersSized(n, s.k.bufs)
  }

  lemma Start(cfg: Config, n: nat, l: nat) returns (s: System)
    requires cfg.entries > 0
    ensures Reach(cfg, n, l, s) && Accepted(n, s, 0)
  {
    var buf: Bytes := seq(MAX_MESSAGE_LEN, _ => '\0');
    var bufs: seq<Bytes> := seq(n, _ => buf);
    s := System(Boot(cfg), Kernel([], [], BufferIds(n), bufs, {}, map[], map[]), Submitting);
    assert Initial(cfg, n, s);
    assert RunTo(cfg, n, l, [s], [], s);
    s := Go(cfg, n, l, s, Submit);
  }

  /** A new connection completes its accept, whose completion is then next. */
  lemma Knock(cfg: Config, n: nat, l: nat, s: System, k: nat) returns (s': System)
    requires Reach(cfg, n, l, s) && Accepted(n, s, k) && k < l
    ensures Reach(cfg, n, l, s') && CanStep(s', HandleNext) && s'.v == s.v
    ensures s'.k.cq == [Cqe(s.k.armed[k].data, k, 0)] && s'.k.armed == s.k.armed[..k]
    ensures s'.k.open == s.k.open + {k} && s'.k.pool == s.k.pool && s'.k.bufs == s.k.bufs
  {
    s' := Go(cfg, n, l, s, Wake);
    s' := Go(cfg, n, l, s', Internal(AcceptDone(k, k)));
    assert Without(s.k.armed, k) == s.k.armed[..k];
  }

  lemma Adopt(cfg: Config, n: nat, l: nat, s: System, k: nat) returns (s': System)
    requires Reach(cfg, n, l, s) && CanStep(s, HandleNext) && s.k.cq[0].data.kind.ACCEPT? && s.k.cq[0].res == k
    requires |s.k.cq| == 1 && s.v.sq == [] && k !in s.v.live && |s.v.live| == k < l && cfg.entries >= 2
    ensures Reach(cfg, n, l, s') && !s'.v.Stopped() && s'.phase.Submitting? && s'.v.live == s.v.live + {k}
    ensures s'.v.sq == [ReadSqe(k), AcceptSqe(cfg)] && s'.k == s.k.(cq := [])
  {
    assert |s.v.live + {k}| == k + 1;
    s' := Go(cfg, n, l, s, HandleNext);
    s' := Go(cfg, n, l, s', Sleep);
  }

  lemma AcceptOne(cfg: Config, n: nat, l: nat, s: System, k: nat) returns (s': System)
    requires Reach(cfg, n, l, s) && Accepted(n, s, k) && k < l && cfg.entries >= 2
    ensures Reach(cfg, n, l, s') && Accepted(n, s', k + 1)
  {
    var s1 := Knock(cfg, n, l, s, k);
    var s2 := Adopt(cfg, n, l, s1, k);
    s' := Go(cfg, n, l, s2, Submit);
    s' := Go(cfg, n, l, s', Submit);
  }

  /** A queue of one entry has no room for the reply to the first connection. */
  lemma FirstFaults(cfg: Config, n: nat, l: nat) returns (s: System)
    requires cfg.entries == 1 && l > 0
    ensures Reach(cfg, n, l, s) && s.v.faulted
  {
    s := Start(cfg, n, l);
    s := Knock(cfg, n, l, s, 0);
    s := Go(cfg, n, l, s, HandleNext);
  }

  /** `k` of `l` connections are sending, the others wait for bytes. */
  ghost predicate Serving(n: nat, l: nat, s: System, k: nat) {
    && k <= l && Idle(s) && |s.k.armed| == l + 1 && Listens(s.k.armed[l - k])
    && (forall i :: 0 <= i < l - k ==> WaitsForBytes(s.k.armed[i]))
    && (forall i :: l - k < i <= l ==> Writes(s.k.armed[i]))
    && (forall b :: k <= b < n ==> b in s.k.pool) && |s.v.live| == l && BuffersSized(n, s.k.bufs)
  }

  /** Buffer `k` is selected for the connection that waits first. */
  lemma Choose(cfg: Config, n: nat, l: nat, s: System, k: nat) returns (s': System)
    requires Reach(cfg, n, l, s) && Serving(n, l, s, k) && k < l <= n
    ensures Reach(cfg, n, l, s') && s'.v == s.v && s'.phase == s.phase
    ensures s'.k == s.k.(armed := s.k.armed[0 := s.k.armed[0].(held := Some(k))], pool := s.k.pool - {k})
  {
    s' := Go(cfg, n, l, s, Internal(Select(0, k)));
  }

  /** A byte arrives for the connection that waits first. */
  lemma Arrive(cfg: Config, n: nat, l: nat, s: System, k: nat, a: Armed) returns (s': System)
    requires Reach(cfg, n, l, s) && Idle(s) && |s.k.armed| > 0 && k < n && BuffersSized(n, s.k.bufs)
    requires WaitsForBytes(a) && s.k.armed[0] == a.(held := Some(k)) && |s.v.live| <= l
    ensures Reach(cfg, n, l, s') && s'.v == s.v && s'.phase == s.phase
    ensures s'.k.cq == [Cqe(a.data, 1, BufferFlags(k))] && s'.k.armed == s.k.armed[1..]
    ensures BuffersSized(n, s'.k.bufs) && s'.k.pool == s.k.pool
  {
    assert |s.k.bufs[k]| == MAX_MESSAGE_LEN;
    assert Without(s.k.armed, 0) == s.k.armed[1..];
    s' := Go(cfg, n, l, s, Internal(RecvDone(0, "x")));
  }

  lemma ServeOne(cfg: Config, n: nat, l: nat, s: System, k: nat) returns (s': System)
    requires Reach(cfg, n, l, s) && Serving(n, l, s, k) && k < l <= n && cfg.entries > 0
    ensures Reach(cfg, n, l, s') && Serving(n, l, s', k + 1)
  {
    var s1 := Choose(cfg, n, l, s, k);
    s1 := Arrive(cfg, n, l, s1, k, s.k.armed[0]);
    s' := Go(cfg, n, l, s1, Wake);
    s' := Go(cfg, n, l, s', HandleNext);
    s' := Go(cfg, n, l, s', Sleep);
    assert s'.v.sq == [WriteSqe(s.k.armed[0].data.fd, k, 1)];
    s' := Go(cfg, n, l, s', Submit);
  }

  /** In one pass `k` of `l` sends have completed and been handled. */
  ghost predicate Draining(l: nat, s: System, k: nat) {
    && k <= l && !s.v.Stopped() && s.phase.Handling? && s.k.cq == [] && |s.v.sq| == 2 * k
    && |s.k.armed| == l - k + 1 && Listens(s.k.armed[0])
    && (forall i :: 0 < i <= l - k ==> Writes(s.k.armed[i])) && |s.v.live| == l
  }

  /** A send fails, and its completion is next. */
  lemma FinishSend(cfg: Config, n: nat, l: nat, s: System, k: nat) returns (s': System)
    requires Reach(cfg, n, l, s) && Draining(l, s, k) && k < l
    ensures Reach(cfg, n, l, s') && CanStep(s', HandleNext) && s'.v == s.v
    ensures s'.k.cq == [Cqe(s.k.armed[1].data, -1, 0)] && s'.k.armed == Without(s.k.armed, 1)
  {
    assert Writes(s.k.armed[1]);
    s' := Go(cfg, n, l, s, Internal(SendDone(1, -1)));
  }

  lemma DrainOne(cfg: Config, n: nat, l: nat, s: System, k: nat) returns (s': System)
    requires Reach(cfg, n, l, s) && Draining(l, s, k) && k < l && 2 * k <= cfg.entries
    ensures Reach(cfg, n, l, s')
    ensures if 2 * k + 2 <= cfg.entries then Draining(l, s', k + 1) else s'.v.faulted
  {
    var s1 := FinishSend(cfg, n, l, s, k);
    assert Writes(s.k.armed[1]);
    s' := Go(cfg, n, l, s1, HandleNext);
  }

  /** All sends are handled, the queue is full, and an accept fails. */
  lemma LastFaults(cfg: Config, n: nat, l: nat, s: System) returns (s': System)
    requires Reach(cfg, n, l, s) && Draining(l, s, l) && cfg.entries == 2 * l
    ensures Reach(cfg, n, l, s') && s'.v.faulted
  {
    s' := Go(cfg, n, l, s, Internal(AcceptFail(0, -1)));
    s' := Go(cfg, n, l, s', HandleNext);
  }

  lemma AllAccepted(cfg: Config, n: nat, l: nat) returns (s: System)
    requires cfg.entries >= 2
    ensures Reach(cfg, n, l, s) && Accepted(n, s, l)
  {
    s := Start(cfg, n, l);
    for k := 0 to l
      invariant Reach(cfg, n, l, s) && Accepted(n, s, k)
    {
      s := AcceptOne(cfg, n, l, s, k);
    }
  }

  lemma AllSending(cfg: Config, n: nat, l: nat) returns (s: System)
    requires cfg.entries >= 2 && l <= n
    ensures Reach(cfg, n, l, s) && Serving(n, l, s, l)
  {
    s := AllAccepted(cfg, n, l);
    for k := 0 to l
      invariant Reach(cfg, n, l, s) && Serving(n, l, s, k)
    {
      s := ServeOne(cfg, n, l, s, k);
    }
  }

  /** With fewer than `2 * l + 1` entries, some run with at most `l` connections overfills the queue. */
  lemma QueueCanOverfill(cfg: Config, n: nat, l: nat) returns (s: System)
    requires 0 < cfg.entries < 2 * l + 1 && l <= n
    ensures Reach(cfg, n, l, s) && s.v.faulted
  {
    if cfg.entries == 1 {
      s := FirstFaults(cfg, n, l);
    } else {
      s := AllSending(cfg, n, l);
      s := Go(cfg, n, l, s, Wake);
      var k := 0;
      while k < l && 2 * k + 2 <= cfg.entries
        invariant k <= l && 2 * k <= cfg.entries && Reach(cfg, n, l, s) && Draining(l, s, k)
      {
        s := DrainOne(cfg, n, l, s, k);
        k := k + 1;
      }
      if k < l {
        s := DrainOne(cfg, n, l, s, k);
      } else {
        s := LastFaults(cfg, n, l, s);
      }
    }
  }

  /** Exactly how many entries `l` connections need, when there are buffers for all of them. */
  lemma OverfillsIff(cfg: Config, n: nat, l: nat)
    requires cfg.entries > 0 && l <= n
    ensures (exists s :: Reach(cfg, n, l, s) && s.v.faulted) <==> cfg.entries < 2 * l + 1
  {
    if cfg.entries < 2 * l + 1 {
      var s := QueueCanOverfill(cfg, n, l);
    }
    if s :| Reach(cfg, n, l, s) && s.v.faulted && cfg.entries >= 2 * l + 1 {
      var states, steps :| RunTo(cfg, n, l, states, steps, s);
      QueueNeverOverfills(cfg, n, states, steps, l, |steps|);
    }
  }
}
