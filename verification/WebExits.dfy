/** When the web server stops: it calls `exit` for no request, and with buffers and entries for all connections it runs on
    until a request it is not defined for or a shortage in the kernel. */
module WebExits {
  import opened Sums
  import opened Uring
  import opened WebServer
  import opened WebProtocol
  import opened Accounts
  import P = EchoProtocol
  import T = WebTheorems
  import W = WebFiles
  import F = FileService
  import X = EchoExits

  lemma ResumeExits(cfg: Config, v: Server, id: nat)
    ensures Resume(cfg, v, id).exited == v.exited
  {
  }

  lemma DeliverExits(cfg: Config, v: Server, fd: nat, update: Promise -> Promise)
    ensures Deliver(cfg, v, fd, update).exited == v.exited
  {
    if !v.Stopped() && fd in v.connections && v.IsSuspended(v.connections[fd]) {
      var id := v.connections[fd];
      var f := v.frames[id];
      ResumeExits(cfg, v.(frames := v.frames[id := f.(promise := update(f.promise))]), id);
    }
  }

  lemma HandleExits(cfg: Config, v: Server, c: Cqe, junk: Promise)
    ensures Handle(cfg, v, c, junk).exited <==> v.exited || c.Fatal()
  {
    match c.data.kind {
      case ACCEPT => if c.res >= 0 { DeliverExits(cfg, Emplace(v, c.res, junk), c.res, SetFd(c.res)); }
      case READ => DeliverExits(cfg, v, c.data.fd, SetRead(c.SelectedBuffer(), ToSize(c.res)));
      case WRITE => DeliverExits(cfg, v, c.data.fd, SetWritten(ToSize(c.res)));
      case PROV_BUF =>
    }
  }

  /** Over every run, whatever its reads return: the process has not stopped at first, and it calls `exit` exactly when a step
      handles a completion with `-ENOBUFS` or a buffer that could not be given back. */
  lemma WebExitsIff(cfg: Config, n: nat, states: seq<System>, steps: seq<P.Step>, junk: seq<Promise>, j: nat)
    requires Trace(cfg, n, states, steps, junk) && j < |steps|
    ensures !states[0].v.Stopped()
    ensures states[j + 1].v.exited <==> steps[j].HandleNext? && states[j].k.cq[0].Fatal()
  {
    assert CanStep(states[j], steps[j]);
    if steps[j].HandleNext? { HandleExits(cfg, states[j].v, states[j].k.cq[0], junk[j]); }
  }

  // ----- A server that goes on -----

  lemma StepProvidesBuffers(cfg: Config, n: nat, s: System, step: P.Step, s': System, junk: Promise)
    requires Inv(cfg, n, s) && CanStep(s, step) && s' == Next(cfg, s, step, junk) && ProvidesSucceed(s.k)
    ensures ProvidesSucceed(s'.k)
  {
    match step
    case Submit => IssueProvides(s.k, s.v.sq[0]);
    case Internal(t) =>
      assert s.k.armed[t.i] in s.k.armed;
      StepProvides(s.k, t);
    case HandleNext =>
    case Wake =>
    case Sleep =>
  }

  lemma RunProvides(cfg: Config, n: nat, states: seq<System>, steps: seq<P.Step>, junk: seq<Promise>, i: nat)
    requires Run(cfg, n, states, steps, junk) && i < |states|
    ensures ProvidesSucceed(states[i].k)
  {
    for j := 0 to i
      invariant ProvidesSucceed(states[j].k)
    {
      RunInv(cfg, n, states, steps, junk, j);
      StepProvidesBuffers(cfg, n, states[j], steps[j], states[j + 1], junk[j]);
    }
  }

  /** In a run of requests the server is defined for, up to state `i`. */
  lemma FatalIsStarved(cfg: Config, n: nat, states: seq<System>, steps: seq<P.Step>, junk: seq<Promise>, i: nat)
    requires Run(cfg, n, states, steps, junk) && i < |states| && !states[i].v.Stopped() && states[i].k.cq != []
    requires forall j :: 0 <= j <= i ==> |states[j].v.connections| <= n
    ensures states[i].k.cq[0].Fatal() <==> states[i].k.cq[0].Starved()
  {
    T.WebNoStarvation(cfg, n, states, steps, junk, i);
    RunProvides(cfg, n, states, steps, junk, i);
    X.FatalIsStarved(states[i].k);
  }

  /** What was answered so far is a run of answerable requests. */
  lemma PrefixRuns(cfg: Config, fs: F.FileSystem, n: nat, states: seq<System>, steps: seq<P.Step>,
                   junk: seq<Promise>, i: nat)
    requires Trace(cfg, n, states, steps, junk) && ServesFiles(cfg, fs) && i <= |steps|
    requires !W.Offended(fs, states, steps, i)
    ensures Run(cfg, n, states[..i + 1], steps[..i], junk[..i])
  {
    var states', steps', junk' := states[..i + 1], steps[..i], junk[..i];
    forall j | 0 <= j < |steps'|
      ensures CanStep(states'[j], steps'[j]) && states'[j + 1] == Next(cfg, states'[j], steps'[j], junk'[j])
      ensures W.ReadsAnswerable(fs, states'[j], steps'[j])
    {
      assert CanStep(states[j], steps[j]);
    }
    W.AnswerableRun(cfg, fs, n, states', steps', junk');
  }

  lemma HeadIsStarved(cfg: Config, fs: F.FileSystem, n: nat, states: seq<System>, steps: seq<P.Step>,
                      junk: seq<Promise>, i: nat)
    requires Trace(cfg, n, states, steps, junk) && ServesFiles(cfg, fs) && i < |steps| && steps[i].HandleNext?
    requires !W.Offended(fs, states, steps, i) && forall j :: 0 <= j <= i ==> |states[j].v.connections| <= n
    ensures states[i].k.cq[0].Fatal() <==> states[i].k.cq[0].Starved()
  {
    assert CanStep(states[i], steps[i]);
    PrefixRuns(cfg, fs, n, states, steps, junk, i);
    FatalIsStarved(cfg, n, states[..i + 1], steps[..i], junk[..i], i);
  }

  /** Over every run with at most `l` connections at once, buffers for all of them and room for `l + 2` entries: a step stops
      the server exactly when it hands it a request it is not defined for, or an accept or a send that the kernel had no
      buffer space for. */
  lemma WebStopsIff(cfg: Config, fs: F.FileSystem, n: nat, states: seq<System>, steps: seq<P.Step>,
                    junk: seq<Promise>, l: nat, j: nat)
    requires Trace(cfg, n, states, steps, junk) && j < |steps| && ServesFiles(cfg, fs)
    requires forall i :: 0 <= i < |steps| ==> W.IntResult(states[i], steps[i])
    requires l <= n && l + 2 <= cfg.entries && forall i :: 0 <= i <= j + 1 ==> |states[i].v.connections| <= l
    ensures states[j + 1].v.Stopped() <==>
            !W.ReadsAnswerable(fs, states[j], steps[j]) || (steps[j].HandleNext? && states[j].k.cq[0].Starved())
  {
    assert CanStep(states[j], steps[j]);
    W.DefinedIffAnswerable(cfg, fs, n, states, steps, junk, l, j);
    W.DefinedIffAnswerable(cfg, fs, n, states, steps, junk, l, j + 1);
    W.OffendedGrows(fs, states, steps, j);
    WebExitsIff(cfg, n, states, steps, junk, j);
    if steps[j].HandleNext? { HeadIsStarved(cfg, fs, n, states, steps, junk, j); }
  }

  /** So with answerable requests it runs on for as long as the kernel reports no such shortage. */
  lemma WebRunsOn(cfg: Config, fs: F.FileSystem, n: nat, states: seq<System>, steps: seq<P.Step>,
                  junk: seq<Promise>, l: nat, j: nat)
    requires Trace(cfg, n, states, steps, junk) && j < |steps| && ServesFiles(cfg, fs)
    requires forall i :: 0 <= i < |steps| ==> W.IntResult(states[i], steps[i])
    requires l <= n && l + 2 <= cfg.entries && forall i :: 0 <= i <= j + 1 ==> |states[i].v.connections| <= l
    requires W.ReadsAnswerable(fs, states[j], steps[j])
    requires forall c :: c in states[j].k.cq ==> !c.Starved()
    ensures !states[j + 1].v.Stopped()
  {
    WebStopsIff(cfg, fs, n, states, steps, junk, l, j);
    assert CanStep(states[j], steps[j]);
    if steps[j].HandleNext? { assert states[j].k.cq[0] in states[j].k.cq; }
  }

  // ----- The listening socket -----

  lemma DeliverListens(cfg: Config, v: Server, fd: nat, update: Promise -> Promise)
    requires X.ListensOn(v.sq, cfg.listener)
    ensures X.ListensOn(Deliver(cfg, v, fd, update).sq, cfg.listener)
  {
  }

  lemma HandleListens(cfg: Config, v: Server, c: Cqe, junk: Promise)
    requires X.ListensOn(v.sq, cfg.listener)
    ensures X.ListensOn(Handle(cfg, v, c, junk).sq, cfg.listener)
  {
    match c.data.kind {
      case ACCEPT => if c.res >= 0 { DeliverListens(cfg, Emplace(v, c.res, junk), c.res, SetFd(c.res)); }
      case READ => DeliverListens(cfg, v, c.data.fd, SetRead(c.SelectedBuffer(), ToSize(c.res)));
      case WRITE => DeliverListens(cfg, v, c.data.fd, SetWritten(ToSize(c.res)));
      case PROV_BUF =>
    }
  }

  lemma StepListens(cfg: Config, s: System, step: P.Step, s': System, junk: Promise)
    requires CanStep(s, step) && s' == Next(cfg, s, step, junk) && X.ListensOn(s.v.sq, cfg.listener)
    ensures X.ListensOn(s'.v.sq, cfg.listener)
  {
    if step.HandleNext? { HandleListens(cfg, s.v, s.k.cq[0], junk); }
  }

  /** Over every run each accept queued is for the listening socket. */
  lemma WebAcceptsOnListener(cfg: Config, n: nat, states: seq<System>, steps: seq<P.Step>, junk: seq<Promise>, i: nat)
    requires Trace(cfg, n, states, steps, junk) && i < |states|
    ensures X.ListensOn(states[i].v.sq, cfg.listener)
  {
    for j := 0 to i
      invariant X.ListensOn(states[j].v.sq, cfg.listener)
    {
      assert CanStep(states[j], steps[j]);
      StepListens(cfg, states[j], steps[j], states[j + 1], junk[j]);
    }
  }
}
