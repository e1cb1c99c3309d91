/** The passes of the coroutine server in a run are those of the program `EchoCoroutine.CoroutineServer`. */
module CoroutinePass {
  import opened Sums
  import opened Uring
  import opened EchoCoroutine
  import opened CoroutineRefinement
  import P = EchoProtocol
  import T = EchoTheorems

  /** What a step hands to the server, if anything. */
  function TakenBy(s: System, step: P.Step, junk: Promise): seq<Input> {
    if step.HandleNext? && s.k.cq != [] then [Input(s.k.cq[0], junk)] else []
  }

  /** What the server was handed in the steps from state `i` to state `j`. */
  function Reaped(states: seq<System>, steps: seq<P.Step>, junk: seq<Promise>, i: nat, j: nat): seq<Input>
    requires i <= j <= |steps| < |states| && |junk| == |steps|
  {
    if i == j then [] else
      Reaped(states, steps, junk, i, j - 1) + TakenBy(states[j - 1], steps[j - 1], junk[j - 1])
  }

  function CompletionOf(): Input -> Cqe { (i: Input) => i.c }

  lemma {:induction false} HandleOneMore(cfg: Config, v: Server, inputs: seq<Input>, i: Input)
    requires !v.Stopped() && !HandleAll(cfg, v, inputs).Stopped()
    ensures HandleAll(cfg, v, inputs + [i]) == Handle(cfg, HandleAll(cfg, v, inputs), i.c, i.junk)
    decreases |inputs|
  {
    if inputs == [] {
      assert [] + [i] == [i] && [i][1..] == [];
      assert HandleAll(cfg, v, [i]) == HandleAll(cfg, Handle(cfg, v, i.c, i.junk), []);
    } else {
      var next := Handle(cfg, v, inputs[0].c, inputs[0].junk);
      assert (inputs + [i])[1..] == inputs[1..] + [i];
      if next.Stopped() {
        assert false;
      } else {
        HandleOneMore(cfg, next, inputs[1..], i);
      }
    }
  }

  /** The server goes on from a completion it handles; the kernel only adds behind those not yet handled. */
  lemma PassStep(cfg: Config, s: System, step: P.Step, s': System, junk: Promise)
    requires CanStep(s, step) && s' == Next(cfg, s, step, junk) && (step.HandleNext? || step.Internal?)
    ensures s'.v == if step.HandleNext? then Handle(cfg, s.v, s.k.cq[0], junk) else s.v
    ensures s.k.cq[|TakenBy(s, step, junk)|..] <= s'.k.cq
  {
  }

  /** From state `s` on the server has handled `done`, in the order the completions were posted. */
  ghost predicate InPass(cfg: Config, s: System, done: seq<Input>, s': System) {
    s'.v == HandleAll(cfg, s.v, done) && s.k.cq <= Map(CompletionOf(), done) + s'.k.cq
  }

  lemma Completions(done: seq<Input>, s: System, step: P.Step, junk: Promise)
    ensures var taken := TakenBy(s, step, junk);
            && Map(CompletionOf(), done + taken) == Map(CompletionOf(), done) + Map(CompletionOf(), taken)
            && Map(CompletionOf(), taken) == if step.HandleNext? && s.k.cq != [] then [s.k.cq[0]] else []
  {
  }

  lemma PassExtends(cfg: Config, s0: System, done: seq<Input>, s: System, step: P.Step, s': System, junk: Promise)
    requires CanStep(s, step) && s' == Next(cfg, s, step, junk) && (step.HandleNext? || step.Internal?)
    requires !s0.v.Stopped() && InPass(cfg, s0, done, s)
    ensures InPass(cfg, s0, done + TakenBy(s, step, junk), s')
  {
    var taken := TakenBy(s, step, junk);
    PassStep(cfg, s, step, s', junk);
    Completions(done, s, step, junk);
    T.Requeued(s0.k.cq, Map(CompletionOf(), done), s.k.cq, Map(CompletionOf(), taken), s'.k.cq);
    if step.HandleNext? {
      HandleOneMore(cfg, s0.v, done, taken[0]);
    } else {
      assert done + [] == done;
    }
  }

  lemma PassGrows(
      cfg: Config, n: nat, states: seq<System>, steps: seq<P.Step>, junk: seq<Promise>, i: nat, m: nat)
    requires Run(cfg, n, states, steps, junk) && i <= m < |steps| && (steps[m].HandleNext? || steps[m].Internal?)
    requires InPass(cfg, states[i], Reaped(states, steps, junk, i, m), states[m])
    ensures InPass(cfg, states[i], Reaped(states, steps, junk, i, m + 1), states[m + 1])
  {
    assert CanStep(states[i], steps[i]) && CanStep(states[m], steps[m]);
    PassExtends(cfg, states[i], Reaped(states, steps, junk, i, m), states[m], steps[m], states[m + 1], junk[m]);
  }

  lemma PassBegins(cfg: Config, s: System)
    ensures InPass(cfg, s, [], s)
  {
    assert Map(CompletionOf(), []) + s.k.cq == s.k.cq;
  }

  /** A pass in a run is the pass of the program: the server has done what `HandlePass` does with what it was handed, and
      that are the completions in the order they were posted, those that arrived meanwhile included. */
  lemma PassIsProgram(
      cfg: Config, n: nat, states: seq<System>, steps: seq<P.Step>, junk: seq<Promise>, i: nat, j: nat)
    requires Run(cfg, n, states, steps, junk) && i <= j < |states|
    requires forall k :: i <= k < j ==> steps[k].HandleNext? || steps[k].Internal?
    ensures InPass(cfg, states[i], Reaped(states, steps, junk, i, j), states[j])
  {
    PassBegins(cfg, states[i]);
    for m := i to j
      invariant InPass(cfg, states[i], Reaped(states, steps, junk, i, m), states[m])
    {
      PassGrows(cfg, n, states, steps, junk, i, m);
    }
  }
}
