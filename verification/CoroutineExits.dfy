/** When the coroutine server stops: like the event loop, failed reads or not. */
module CoroutineExits {
  import opened Sums
  import opened Uring
  import opened EchoCoroutine
  import opened Accounts
  import opened CoroutineRefinement
  import opened CoroutineSafety
  import P = EchoProtocol
  import L = EchoLoop
  import X = EchoExits

  predicate Overfills(cfg: Config, v: Server, reply: seq<Sqe>) { reply != [] && |v.sq| + |reply| > cfg.entries }

  /** What a completion that has to be handled makes of a server in order. */
  lemma HandleStops(cfg: Config, n: nat, s: System, junk: Promise)
    requires SafeInv(n, s) && CanStep(s, P.HandleNext)
    ensures var v', c := Handle(cfg, s.v, s.k.cq[0], junk), s.k.cq[0];
            && (v'.exited <==> c.Fatal())
            && (v'.faulted <==> !c.OutOfBuffers() && Overfills(cfg, s.v, ReplyTo(cfg, NormCqe()(c))))
  {
    var c := s.k.cq[0];
    if !c.OutOfBuffers() {
      HandleIsLoopOn(cfg, n, s, junk);
      LoopOnFault(cfg, AbsServer(s.v), NormCqe()(c));
      LoopOnExits(cfg, AbsServer(s.v), NormCqe()(c));
    }
  }

  lemma LoopOnExits(cfg: Config, v: L.Server, c: Cqe)
    requires !v.exited && !c.OutOfBuffers()
    ensures LoopOn(cfg, v, c).exited <==> c.Fatal()
  {
    if !c.data.kind.READ? { X.HandleExits(cfg, v, c); }
  }

  lemma StepExits(cfg: Config, n: nat, s: System, step: P.Step, s': System, junk: Promise)
    requires SafeInv(n, s) && CanStep(s, step) && s' == Next(cfg, s, step, junk)
    ensures s'.v.exited <==> step.HandleNext? && s.k.cq[0].Fatal()
  {
    if step.HandleNext? { HandleStops(cfg, n, s, junk); }
  }

  /** Over every run: the process has not stopped at first, and it calls `exit` exactly when a step handles a completion with
      `-ENOBUFS` or a buffer that could not be given back. */
  lemma CoroutineExitsIff(
      cfg: Config, n: nat, states: seq<System>, steps: seq<P.Step>, junk: seq<Promise>, j: nat)
    requires Run(cfg, n, states, steps, junk) && j < |steps|
    ensures !states[0].v.Stopped()
    ensures states[j + 1].v.exited <==> steps[j].HandleNext? && states[j].k.cq[0].Fatal()
  {
    RunIsSafe(cfg, n, states, steps, junk, j);
    StepExits(cfg, n, states[j], steps[j], states[j + 1], junk[j]);
  }

  lemma StepProvidesBuffers(cfg: Config, n: nat, s: System, step: P.Step, s': System, junk: Promise)
    requires SafeInv(n, s) && CanStep(s, step) && s' == Next(cfg, s, step, junk) && ProvidesSucceed(Abs(s).k)
    ensures ProvidesSucceed(Abs(s').k)
  {
    match step {
      case Submit =>
        SubmitSimulates(cfg, n, s, junk);
        IssueProvides(Abs(s).k, Abs(s).v.sq[0]);
      case Internal(t) =>
        InternalSimulates(cfg, n, s, t, junk);
        assert Abs(s).k.armed[t.i] in Abs(s).k.armed;
        StepProvides(Abs(s).k, t);
      case HandleNext => MapTail(NormCqe(), s.k.cq);
      case Wake =>
      case Sleep =>
    }
  }

  lemma RunProvides(cfg: Config, n: nat, states: seq<System>, steps: seq<P.Step>, junk: seq<Promise>, i: nat)
    requires Run(cfg, n, states, steps, junk) && i < |states|
    ensures ProvidesSucceed(Abs(states[i]).k)
  {
    for j := 0 to i
      invariant ProvidesSucceed(Abs(states[j]).k)
    {
      RunIsSafe(cfg, n, states, steps, junk, j);
      StepProvidesBuffers(cfg, n, states[j], steps[j], states[j + 1], junk[j]);
    }
  }

  lemma FedIsStarved(s: System)
    requires Fed(s) && !s.v.Stopped() && s.k.cq != [] && ProvidesSucceed(Abs(s).k)
    ensures s.k.cq[0].Fatal() <==> s.k.cq[0].Starved()
  {
    X.FatalIsStarved(Abs(s).k);
  }

  lemma HeadIsStarved(
      cfg: Config, n: nat, states: seq<System>, steps: seq<P.Step>, junk: seq<Promise>, i: nat)
    requires Run(cfg, n, states, steps, junk) && i < |steps| && steps[i].HandleNext?
    requires forall j :: 0 <= j <= i ==> |states[j].v.connections| <= n
    ensures states[i].k.cq[0].Fatal() <==> states[i].k.cq[0].Starved()
  {
    assert CanStep(states[i], steps[i]);
    CoroutineNoStarvation(cfg, n, states, steps, junk, i);
    RunProvides(cfg, n, states, steps, junk, i);
    FedIsStarved(states[i]);
  }

  /** Over every run with at most `l` connections at once, buffers for all of them and room for `2 * l + 1` entries: a step
      stops the server exactly when it handles an accept or a send that the kernel had no buffer space for. */
  lemma CoroutineStopsIff(
      cfg: Config, n: nat, states: seq<System>, steps: seq<P.Step>, junk: seq<Promise>, l: nat, j: nat)
    requires Run(cfg, n, states, steps, junk) && j < |steps| && l <= n && 2 * l + 1 <= cfg.entries
    requires forall i :: 0 <= i <= j + 1 ==> |states[i].v.connections| <= l
    ensures states[j + 1].v.Stopped() <==> steps[j].HandleNext? && states[j].k.cq[0].Starved()
  {
    CoroutineQueueNeverOverfills(cfg, n, states, steps, junk, l, j + 1);
    CoroutineExitsIff(cfg, n, states, steps, junk, j);
    RunIsSafe(cfg, n, states, steps, junk, j + 1);
    if steps[j].HandleNext? { HeadIsStarved(cfg, n, states, steps, junk, j); }
  }

  // ----- The listening socket -----

  lemma ReplyListens(cfg: Config, c: Cqe)
    ensures X.ListensOn(ReplyTo(cfg, c), cfg.listener)
  {
  }

  lemma StepListens(cfg: Config, n: nat, s: System, step: P.Step, s': System, junk: Promise)
    requires SafeInv(n, s) && CanStep(s, step) && s' == Next(cfg, s, step, junk) && !s'.v.Stopped()
    requires X.ListensOn(Abs(s).v.sq, cfg.listener)
    ensures X.ListensOn(Abs(s').v.sq, cfg.listener)
  {
    if step.Submit? {
      SubmitSimulates(cfg, n, s, junk);
    } else if step.HandleNext? {
      HandleReplies(cfg, n, s, junk);
      ReplyListens(cfg, NormCqe()(s.k.cq[0]));
    }
  }

  /** Over every run each accept queued is for the listening socket. */
  lemma CoroutineAcceptsOnListener(
      cfg: Config, n: nat, states: seq<System>, steps: seq<P.Step>, junk: seq<Promise>, i: nat)
    requires Run(cfg, n, states, steps, junk) && i < |states| && !states[i].v.Stopped()
    ensures forall e :: e in states[i].v.sq && e.op.Accept? ==> e.op.listener == cfg.listener
  {
    for j := 0 to i
      invariant X.ListensOn(Abs(states[j]).v.sq, cfg.listener)
    {
      if j + 1 < i { assert CanStep(states[j + 1], steps[j + 1]); }
      RunIsSafe(cfg, n, states, steps, junk, j);
      StepListens(cfg, n, states[j], steps[j], states[j + 1], junk[j]);
    }
    forall e | e in states[i].v.sq && e.op.Accept? ensures e.op.listener == cfg.listener {
      assert NormSqe()(e) in AbsServer(states[i].v).sq;
    }
  }
}
