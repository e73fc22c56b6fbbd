/** The low-level Controller: the HIRO subgoal-transition rules and the Controller's training
    loop, whose only state the model tracks is its actor and critic parameters. */
module Controller {
  import opened Vectors
  import opened ActorCritic

  /** hiro_subgoal_transition: a subgoal is a displacement relative to the current state, so when
      the state moves from `state` to `nextState` the subgoal is re-anchored at the new state. */
  function HiroSubgoalTransition(state: Vec, subgoal: Vec, nextState: Vec): (next: Vec)
    requires |state| == |subgoal| == |nextState|
    ensures |next| == |state|
    // the absolute target `state + subgoal` does not move
    ensures Add(nextState, next) == Add(state, subgoal)
  {
    Sub(Add(state, subgoal), nextState)
  }

  /** Staying in place leaves the subgoal as it is. */
  lemma TransitionStandingStill(state: Vec, subgoal: Vec)
    requires |state| == |subgoal|
    ensures HiroSubgoalTransition(state, subgoal, state) == subgoal
  {
  }

  /** Two consecutive transitions equal one transition straight to the final state. */
  lemma TransitionComposes(s0: Vec, g: Vec, s1: Vec, s2: Vec)
    requires |s0| == |g| == |s1| == |s2|
    ensures HiroSubgoalTransition(s1, HiroSubgoalTransition(s0, g, s1), s2)
         == HiroSubgoalTransition(s0, g, s2)
  {
  }

  /** Moving back to the starting state undoes a transition. */
  lemma TransitionInverse(s0: Vec, g: Vec, s1: Vec)
    requires |s0| == |g| == |s1|
    ensures HiroSubgoalTransition(s1, HiroSubgoalTransition(s0, g, s1), s0) == g
  {
    TransitionComposes(s0, g, s1, s0);
    TransitionStandingStill(s0, g);
  }

  /** Every state of a trajectory has the subgoal's dimension. */
  ghost predicate Aligned(states: seq<Vec>, subgoal: Vec)
  {
    forall t :: 0 <= t < |states| ==> |states[t]| == |subgoal|
  }

  /** One row of multi_subgoal_transition: the subgoal active at each step of a trajectory when
      `subgoal` was issued at its first state. */
  function SubgoalsAlong(states: seq<Vec>, subgoal: Vec): (sgs: seq<Vec>)
    requires |states| > 0 && Aligned(states, subgoal)
    ensures |sgs| == |states|
    ensures forall t :: 0 <= t < |sgs| ==> |sgs[t]| == |subgoal|
  {
    var anchor := Add(subgoal, states[0]);
    seq(|states|, t requires 0 <= t < |states| => Sub(anchor, states[t]))
  }

  /** multi_subgoal_transition over a batch: trajectory `b` with its own subgoal `subgoals[b]`. */
  function MultiSubgoalTransition(states: seq<seq<Vec>>, subgoals: seq<Vec>): (r: seq<seq<Vec>>)
    requires |states| == |subgoals|
    requires forall b :: 0 <= b < |states| ==> |states[b]| > 0
    requires forall b, t :: 0 <= b < |states| && 0 <= t < |states[b]| ==> |states[b][t]| == |subgoals[b]|
    ensures |r| == |states|
    ensures forall b :: 0 <= b < |r| ==> |r[b]| == |states[b]|
    ensures forall b, t :: 0 <= b < |r| && 0 <= t < |r[b]| ==> |r[b][t]| == |subgoals[b]|
    // the subgoal issued at the first state is the one active there
    ensures forall b :: 0 <= b < |r| ==> r[b][0] == subgoals[b]
    // every later step is one HIRO transition from the step before
    ensures forall b, t :: 0 <= b < |r| && 0 < t < |r[b]| ==>
              r[b][t] == HiroSubgoalTransition(states[b][t - 1], r[b][t - 1], states[b][t])
    // every step aims at the same absolute target
    ensures forall b, t :: 0 <= b < |r| && 0 <= t < |r[b]| ==>
              Add(states[b][t], r[b][t]) == Add(states[b][0], subgoals[b])
  {
    var r := seq(|states|, b requires 0 <= b < |states| => SubgoalsAlong(states[b], subgoals[b]));
    forall b, t | 0 <= b < |r| && 0 <= t < |r[b]|
      ensures |states[b][t]| == |r[b][t]| == |subgoals[b]|
      ensures Add(states[b][t], r[b][t]) == Add(states[b][0], subgoals[b])
      ensures t == 0 ==> r[b][t] == subgoals[b]
      ensures t > 0 ==> r[b][t] == HiroSubgoalTransition(states[b][t - 1], r[b][t - 1], states[b][t])
    {
      assert r[b] == SubgoalsAlong(states[b], subgoals[b]);
      SubgoalsAlongAt(states[b], subgoals[b], t);
    }
    r
  }

  lemma SubgoalsAlongAt(states: seq<Vec>, subgoal: Vec, t: nat)
    requires |states| > 0 && Aligned(states, subgoal) && t < |states|
    ensures Add(states[t], SubgoalsAlong(states, subgoal)[t]) == Add(states[0], subgoal)
    ensures t == 0 ==> SubgoalsAlong(states, subgoal)[t] == subgoal
    ensures t > 0 ==> SubgoalsAlong(states, subgoal)[t]
                      == HiroSubgoalTransition(states[t - 1], SubgoalsAlong(states, subgoal)[t - 1], states[t])
  {
    var sgs := SubgoalsAlong(states, subgoal);
    assert Add(states[t], sgs[t]) == Add(states[0], subgoal);
    if t > 0 {
      var h := HiroSubgoalTransition(states[t - 1], sgs[t - 1], states[t]);
      assert forall i :: 0 <= i < |h| ==> h[i] == sgs[t][i];
    }
  }

  /** The per-step rule applied one step at a time along the trajectory, starting from `subgoal`. */
  function ChainedTransitions(states: seq<Vec>, subgoal: Vec): (sgs: seq<Vec>)
    requires |states| > 0 && Aligned(states, subgoal)
    ensures |sgs| == |states| && sgs[0] == subgoal
    ensures forall t :: 0 <= t < |sgs| ==> |sgs[t]| == |subgoal|
    decreases |states|
  {
    if |states| == 1 then [subgoal]
    else
      var prev := ChainedTransitions(states[..|states| - 1], subgoal);
      prev + [HiroSubgoalTransition(states[|states| - 2], prev[|prev| - 1], states[|states| - 1])]
  }

  /** Telescoping: measuring every step from the first state (multi_subgoal_transition) gives the
      same subgoals as applying hiro_subgoal_transition step after step. */
  lemma {:induction false} MultiIsChained(states: seq<Vec>, subgoal: Vec)
    requires |states| > 0 && Aligned(states, subgoal)
    ensures MultiSubgoalTransition([states], [subgoal])[0] == ChainedTransitions(states, subgoal)
    decreases |states|
  {
    var multi := MultiSubgoalTransition([states], [subgoal]);
    assert multi[0] == SubgoalsAlong(states, subgoal);
    if |states| > 1 {
      var init := states[..|states| - 1];
      MultiIsChained(init, subgoal);
      var along := SubgoalsAlong(init, subgoal);
      assert MultiSubgoalTransition([init], [subgoal])[0] == along;
      assert along == SubgoalsAlong(states, subgoal)[..|states| - 1];
    }
  }

  /** When the issued subgoal is exactly the displacement the trajectory achieved, the subgoal
      left at its last state is zero: the target was reached. */
  lemma DisplacementIsReached(states: seq<Vec>, subgoal: Vec)
    requires |states| > 0 && Aligned(states, subgoal)
    requires subgoal == Sub(states[|states| - 1], states[0])
    ensures MultiSubgoalTransition([states], [subgoal])[0][|states| - 1] == Zero(|subgoal|)
  {
    var last := MultiSubgoalTransition([states], [subgoal])[0][|states| - 1];
    assert Add(states[|states| - 1], last) == Add(states[0], subgoal);
    assert forall i :: 0 <= i < |last| ==> last[i] == Add(states[|states| - 1], last)[i] - states[|states| - 1][i];
  }

  /** One replay sample of the Controller, `x, y, sg, u, r, d, _, _ = replay_buffer.sample(...)`:
      states, next states, subgoals, actions, rewards and done flags, one entry per batch element. */
  datatype Sample = Sample(x: seq<Vec>, y: seq<Vec>, sg: seq<Vec>, u: seq<Vec>,
                           r: seq<real>, d: seq<real>)

  /** The shapes the array arithmetic of Controller.train needs. */
  predicate SampleShaped(b: Sample)
  {
    var n := |b.x|;
    && n > 0
    && |b.y| == n && |b.sg| == n && |b.u| == n && |b.r| == n && |b.d| == n
    && forall i :: 0 <= i < n ==> |b.sg[i]| == |b.x[i]| && |b.y[i]| == |b.x[i]|
  }

  /** What the critics see: the current triple is (state, subgoal, action) and the target networks
      are evaluated at the next state with the subgoal carried over by hiro_subgoal_transition. */
  function CriticInputsOf(b: Sample): (c: CriticInputs)
    requires SampleShaped(b)
    ensures WellFormed(c) && |c.nextGoal| == |b.x|
    ensures forall i :: 0 <= i < |b.x| ==>
              c.nextGoal[i] == HiroSubgoalTransition(b.x[i], b.sg[i], b.y[i])
  {
    CriticInputs(b.x, b.sg, b.u, b.y,
                 seq(|b.x|, i requires 0 <= i < |b.x| => HiroSubgoalTransition(b.x[i], b.sg[i], b.y[i])),
                 b.r, b.d)
  }

  function InputsOf(samples: seq<Sample>): (cs: seq<CriticInputs>)
    requires forall k :: 0 <= k < |samples| ==> SampleShaped(samples[k])
    ensures |cs| == |samples|
    ensures forall k :: 0 <= k < |cs| ==> WellFormed(cs[k]) && cs[k] == CriticInputsOf(samples[k])
  {
    seq(|samples|, k requires 0 <= k < |samples| => CriticInputsOf(samples[k]))
  }

  /** The Controller: its networks and the parameters of actor, critic and their targets. The
      target parameters live in arrays that train updates in place. */
  class Controller {
    const nets: Nets
    var actor: seq<real>
    var critic: seq<real>
    const actorTarget: array<real>
    const criticTarget: array<real>

    ghost predicate Valid()
      reads this
    {
      actorTarget != criticTarget && actorTarget.Length == |actor| && criticTarget.Length == |critic|
    }

    function Params(): (p: Snapshot)
      reads this, actorTarget, criticTarget
      ensures Valid() ==> Shaped(p)
    {
      Snapshot(actor, actorTarget[..], critic, criticTarget[..])
    }

    /** The target networks start as exact copies of the online ones (`load_state_dict`). */
    constructor (actorNet: ActorNet, criticNet: CriticNet, actorInit: seq<real>, criticInit: seq<real>)
      ensures Valid() && fresh(actorTarget) && fresh(criticTarget)
      ensures nets == Nets(actorNet, actorNet, criticNet)
      ensures Params() == Snapshot(actorInit, actorInit, criticInit, criticInit)
    {
      nets := Nets(actorNet, actorNet, criticNet);
      actor, critic := actorInit, criticInit;
      actorTarget := new real[|actorInit|](i requires 0 <= i < |actorInit| => actorInit[i]);
      criticTarget := new real[|criticInit|](i requires 0 <= i < |criticInit| => criticInit[i]);
      new;
      assert actorTarget[..] == actorInit;
      assert criticTarget[..] == criticInit;
    }

    /** The body of the loop in Controller.train: critic loss, critic step, actor loss, actor
        step, then both target networks move towards the stepped online networks. */
    method Iterate(batch: CriticInputs, step: Optimised, discount: real, tau: real)
      returns (actorLoss: real, criticLoss: real)
      requires Valid() && WellFormed(batch) && Fits(Params(), step)
      modifies this, actorTarget, criticTarget
      ensures Valid()
      ensures Params() == Step(old(Params()), step, tau)
      ensures criticLoss == CriticLoss(nets, old(critic), batch, TDTargets(nets, old(Params()), batch, discount))
      ensures actorLoss == ActorLoss(nets, old(actor), step.critic, batch)
    {
      var ys := TDTargets(nets, Params(), batch, discount);
      criticLoss := CriticLoss(nets, critic, batch, ys);
      critic := step.critic;
      actorLoss := ActorLoss(nets, actor, critic, batch);
      actor := step.actor;
      SoftUpdate(criticTarget, critic, tau);
      SoftUpdate(actorTarget, actor, tau);
    }

    /** One pass of train's loop, stated against the fold: iteration `k` of a run that started
        from `start` leaves the parameters and loss sums of `k + 1` iterations. */
    method Advance(ghost start: Snapshot, ghost inputs: seq<CriticInputs>, batch: CriticInputs,
                   steps: seq<Optimised>, k: nat, discount: real, tau: real, sumActor: real, sumCritic: real)
      returns (newSumActor: real, newSumCritic: real)
      requires Valid() && Schedule(start, inputs, steps) && k < |steps| && batch == inputs[k]
      requires Params() == ParamsAt(start, steps, tau, k)
      requires sumActor == ActorLossSum(nets, start, inputs, steps, tau, k)
      requires sumCritic == CriticLossSum(nets, start, inputs, steps, discount, tau, k)
      modifies this, actorTarget, criticTarget
      ensures Valid() && Params() == ParamsAt(start, steps, tau, k + 1)
      ensures newSumActor == ActorLossSum(nets, start, inputs, steps, tau, k + 1)
      ensures newSumCritic == CriticLossSum(nets, start, inputs, steps, discount, tau, k + 1)
    {
      IterationStep(nets, start, inputs, steps, discount, tau, k);
      var actorLoss, criticLoss := Iterate(batch, steps[k], discount, tau);
      newSumActor, newSumCritic := sumActor + actorLoss, sumCritic + criticLoss;
    }

    /** Controller.train: one iteration per sample. `steps[k]` holds the online parameters the
        optimiser leaves in iteration `k`. Returns the mean actor and critic losses. */
    method Train(samples: seq<Sample>, steps: seq<Optimised>, discount: real, tau: real)
      returns (avgActorLoss: real, avgCriticLoss: real)
      requires Valid()
      requires |samples| > 0 && |steps| == |samples|
      requires forall k :: 0 <= k < |samples| ==> SampleShaped(samples[k])
      requires forall k :: 0 <= k < |steps| ==> |steps[k].actor| == |actor| && |steps[k].critic| == |critic|
      modifies this, actorTarget, criticTarget
      ensures Valid()
      ensures Schedule(old(Params()), InputsOf(samples), steps)
      ensures Params() == ParamsAt(old(Params()), steps, tau, |steps|)
      ensures avgActorLoss == ActorLossSum(nets, old(Params()), InputsOf(samples), steps, tau, |steps|) / |steps| as real
      ensures avgCriticLoss == CriticLossSum(nets, old(Params()), InputsOf(samples), steps, discount, tau, |steps|) / |steps| as real
    {
      ghost var start := Params();
      ghost var inputs := InputsOf(samples);
      assert Schedule(start, inputs, steps);
      var sumActor, sumCritic := 0.0, 0.0;
      for it := 0 to |samples|
        invariant Valid()
        invariant Params() == ParamsAt(start, steps, tau, it)
        invariant sumActor == ActorLossSum(nets, start, inputs, steps, tau, it)
        invariant sumCritic == CriticLossSum(nets, start, inputs, steps, discount, tau, it)
      {
        var batch := CriticInputsOf(samples[it]);
        assert batch == inputs[it];
        sumActor, sumCritic := Advance(start, inputs, batch, steps, it, discount, tau, sumActor, sumCritic);
      }
      avgActorLoss, avgCriticLoss := sumActor / |samples| as real, sumCritic / |samples| as real;
    }
  }
}
