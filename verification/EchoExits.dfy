/** When the echo servers stop. A run of the event loop ends at a completion it calls `exit` for or at a full queue, and with
    buffers and entries for all connections only where the kernel itself has no buffer space for an accept or a send. */
module EchoExits {
  import opened Uring
  import opened EchoLoop
  import opened Accounts
  import opened EchoProtocol
  import T = EchoTheorems
  import Q = EchoQueue

  lemma HandleExits(cfg: Config, v: Server, c: Cqe)
    ensures Handle(cfg, v, c).exited <==> v.exited || c.Fatal()
  {
  }

  /** Over every run: the process has called `exit` exactly when the last step handled a completion with `-ENOBUFS` or a
      buffer that could not be given back. */
  lemma ExitsIff(cfg: Config, n: nat, states: seq<System>, steps: seq<Step>, i: nat)
    requires Run(cfg, n, states, steps) && i < |states|
    ensures states[i].v.exited <==> i > 0 && steps[i - 1].HandleNext? && states[i - 1].k.cq[0].Fatal()
  {
    if i > 0 {
      assert CanStep(states[i - 1], steps[i - 1]);
      if steps[i - 1].HandleNext? { HandleExits(cfg, states[i - 1].v, states[i - 1].k.cq[0]); }
    }
  }

  // ----- A server that goes on -----

  lemma StepProvidesBuffers(cfg: Config, n: nat, s: System, step: Step, s': System)
    requires Inv(n, s) && CanStep(s, step) && s' == Next(cfg, s, step) && ProvidesSucceed(s.k)
    ensures ProvidesSucceed(s'.k)
  {
    match step
    case Submit => IssueProvides(s.k, s.v.sq[0]);
    case Internal(t) =>
      assert s.k.armed[t.i] in s.k.armed;
      StepProvides(s.k, t);
    case HandleNext =>
    case Wake =>
    case Sleep =>
  }

  lemma RunProvides(cfg: Config, n: nat, states: seq<System>, steps: seq<Step>, i: nat)
    requires Run(cfg, n, states, steps) && i < |states|
    ensures ProvidesSucceed(states[i].k)
  {
    for j := 0 to i
      invariant ProvidesSucceed(states[j].k)
    {
      RunInv(cfg, n, states, steps, j);
      StepProvidesBuffers(cfg, n, states[j], steps[j], states[j + 1]);
    }
  }

  lemma FatalIsStarved(k: Kernel)
    requires k.cq != [] && ProvidesSucceed(k) && T.NoRefusal(k)
    ensures k.cq[0].Fatal() <==> k.cq[0].Starved()
  {
    assert k.cq[0] in k.cq;
  }

  /** Over every run with at most `l` connections live at once, buffers for all of them and room for `2 * l + 1` entries: the
      server has stopped exactly when the kernel had no buffer space for an accept or a send and the completion that says so
      was just handled. Nothing else a client or the kernel does ends the process. */
  lemma StopsIff(cfg: Config, n: nat, states: seq<System>, steps: seq<Step>, l: nat, i: nat)
    requires Run(cfg, n, states, steps) && i < |states| && l <= n && 2 * l + 1 <= cfg.entries
    requires forall j :: 0 <= j <= i ==> |states[j].v.live| <= l
    ensures states[i].v.Stopped() <==> i > 0 && steps[i - 1].HandleNext? && states[i - 1].k.cq[0].Starved()
  {
    Q.QueueNeverOverfills(cfg, n, states, steps, l, i);
    ExitsIff(cfg, n, states, steps, i);
    if i > 0 {
      assert CanStep(states[i - 1], steps[i - 1]);
      if steps[i - 1].HandleNext? {
        T.NoStarvation(cfg, n, states, steps, i - 1);
        RunProvides(cfg, n, states, steps, i - 1);
        FatalIsStarved(states[i - 1].k);
      }
    }
  }

  /** So it runs on for as long as the kernel reports no such shortage. */
  lemma RunsOn(cfg: Config, n: nat, states: seq<System>, steps: seq<Step>, l: nat, i: nat)
    requires Run(cfg, n, states, steps) && i < |states| && l <= n && 2 * l + 1 <= cfg.entries
    requires forall j :: 0 <= j <= i ==> |states[j].v.live| <= l
    requires forall j, c :: 0 <= j < i && c in states[j].k.cq ==> !c.Starved()
    ensures !states[i].v.Stopped()
  {
    StopsIff(cfg, n, states, steps, l, i);
    if i > 0 {
      assert CanStep(states[i - 1], steps[i - 1]);
      if steps[i - 1].HandleNext? { assert states[i - 1].k.cq[0] in states[i - 1].k.cq; }
    }
  }

  /** That shortage does end it: an accept that fails with `ENOBUFS` makes the server exit before any client was served. */
  lemma ShortageExits(cfg: Config, n: nat) returns (s: System)
    requires cfg.entries > 0
    ensures Q.Reach(cfg, n, 0, s) && s.v.exited
  {
    s := Q.Start(cfg, n, 0);
    s := Q.Go(cfg, n, 0, s, Wake);
    s := Q.Go(cfg, n, 0, s, Internal(AcceptFail(0, -ENOBUFS)));
    s := Q.Go(cfg, n, 0, s, HandleNext);
  }

  // ----- The listening socket -----

  /** Every accept is for the listening socket. */
  predicate ListensOn(sq: seq<Sqe>, listener: nat) {
    forall e :: e in sq && e.op.Accept? ==> e.op.listener == listener && e.data.fd == listener
  }

  lemma StepListens(cfg: Config, s: System, step: Step, s': System)
    requires CanStep(s, step) && s' == Next(cfg, s, step) && ListensOn(s.v.sq, cfg.listener)
    ensures ListensOn(s'.v.sq, cfg.listener)
  {
  }

  /** Over every run each accept queued is for the listening socket. */
  lemma AcceptsOnListener(cfg: Config, n: nat, states: seq<System>, steps: seq<Step>, i: nat)
    requires Run(cfg, n, states, steps) && i < |states|
    ensures ListensOn(states[i].v.sq, cfg.listener)
  {
    for j := 0 to i
      invariant ListensOn(states[j].v.sq, cfg.listener)
    {
      StepListens(cfg, states[j], steps[j], states[j + 1]);
    }
  }
}
