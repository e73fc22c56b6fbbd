/** The arithmetic that Manager.train and Controller.train share: the twin-critic TD target, the
    critic and actor losses, the Polyak update of the target networks, and the fold of those over
    the iterations of one `train` call. Networks are functions of their parameter vectors. */
module ActorCritic {
  import opened Vectors

  /** An actor evaluated at a parameter vector: (parameters, state, goal) to its proposal. */
  type ActorNet = (seq<real>, Vec, Vec) -> Vec

  /** The two value heads of a twin critic. */
  datatype Heads = Heads(q1: real, q2: real)

  /** A twin critic evaluated at a parameter vector: (parameters, state, goal, proposal). */
  type CriticNet = (seq<real>, Vec, Vec, Vec) -> Heads

  /** The networks of one policy; the target actor may be built differently from the online one. */
  datatype Nets = Nets(actor: ActorNet, actorTarget: ActorNet, critic: CriticNet)

  /** The parameters of the four networks of one policy. */
  datatype Snapshot = Snapshot(actor: seq<real>, actorTarget: seq<real>,
                               critic: seq<real>, criticTarget: seq<real>)

  /** Each target network has as many parameters as its online network. */
  predicate Shaped(p: Snapshot)
  {
    |p.actorTarget| == |p.actor| && |p.criticTarget| == |p.critic|
  }

  /** The online parameters left by the optimiser steps of one iteration. */
  datatype Optimised = Optimised(critic: seq<real>, actor: seq<real>)

  predicate Fits(p: Snapshot, o: Optimised)
  {
    |o.actor| == |p.actor| && |o.critic| == |p.critic|
  }

  /** What the critics see in one iteration, one entry per batch element: the current
      (state, goal, third) triple, where the third is the subgoal for the Manager and the action
      for the Controller; the next state and goal the target networks are evaluated at; the
      reward and the done flag. */
  datatype CriticInputs = CriticInputs(state: seq<Vec>, goal: seq<Vec>, third: seq<Vec>,
                                       nextState: seq<Vec>, nextGoal: seq<Vec>,
                                       reward: seq<real>, done: seq<real>)

  predicate WellFormed(b: CriticInputs)
  {
    var n := |b.state|;
    && n > 0
    && |b.goal| == n && |b.third| == n && |b.nextState| == n && |b.nextGoal| == n
    && |b.reward| == n && |b.done| == n
  }

  lemma NonNegativeProduct(a: real, b: real)
    requires a >= 0.0 && b >= 0.0
    ensures a * b >= 0.0
  {
  }

  lemma MulMonotone(c: real, a: real, b: real)
    requires c >= 0.0 && a <= b
    ensures c * a <= c * b
  {
    assert c * b - c * a == c * (b - a);
  }

  /** The twin-critic TD target `r + (1 - d) * discount * min(Q1', Q2')`. */
  function TDTarget(reward: real, done: real, discount: real, next: Heads): (y: real)
    // a terminal transition is worth its reward alone
    ensures done == 1.0 ==> y == reward
    // the target bootstraps from one of the two heads ...
    ensures y == reward + (1.0 - done) * discount * next.q1
         || y == reward + (1.0 - done) * discount * next.q2
    // ... the more pessimistic one whenever the bootstrap weight is non-negative
    ensures (1.0 - done) * discount >= 0.0 ==>
              y <= reward + (1.0 - done) * discount * next.q1
              && y <= reward + (1.0 - done) * discount * next.q2
  {
    var w, m := (1.0 - done) * discount, Min(next.q1, next.q2);
    if w >= 0.0 then
      MulMonotone(w, m, next.q1);
      MulMonotone(w, m, next.q2);
      reward + w * m
    else
      reward + w * m
  }

  /** The TD targets of a batch: the target critic at the target actor's proposal. */
  function TDTargets(nets: Nets, p: Snapshot, b: CriticInputs, discount: real): (ys: seq<real>)
    requires WellFormed(b)
    ensures |ys| == |b.state|
    // a terminal transition of the batch is worth its reward alone
    ensures forall i :: 0 <= i < |ys| && b.done[i] == 1.0 ==> ys[i] == b.reward[i]
  {
    seq(|b.state|, i requires 0 <= i < |b.state| => TDTargetAt(nets, p, b, discount, i))
  }

  /** The TD target of batch element `i`. */
  function TDTargetAt(nets: Nets, p: Snapshot, b: CriticInputs, discount: real, i: nat): real
    requires WellFormed(b) && i < |b.state|
  {
    var s, g := b.nextState[i], b.nextGoal[i];
    TDTarget(b.reward[i], b.done[i], discount, nets.critic(p.criticTarget, s, g, nets.actorTarget(p.actorTarget, s, g)))
  }

  /** nn.MSELoss with its default mean reduction. */
  function MeanSquaredError(pred: seq<real>, target: seq<real>): (e: real)
    requires |pred| == |target| > 0
    ensures e >= 0.0
  {
    SqNormSubZero(pred, target);
    DivideSign(SqNorm(Sub(pred, target)), |pred| as real);
    SqNorm(Sub(pred, target)) / |pred| as real
  }

  /** The squared error vanishes exactly when the prediction matches the target everywhere. */
  lemma MeanSquaredErrorZero(pred: seq<real>, target: seq<real>)
    requires |pred| == |target| > 0
    ensures MeanSquaredError(pred, target) == 0.0 <==> pred == target
  {
    SqNormSubZero(pred, target);
    DivideSign(SqNorm(Sub(pred, target)), |pred| as real);
  }

  lemma DivideSign(x: real, n: real)
    requires x >= 0.0 && n > 0.0
    ensures x / n >= 0.0
    ensures x / n == 0.0 <==> x == 0.0
  {
    var q := x / n;
    assert q * n == x;
    if q == 0.0 {
      assert x == 0.0 * n;
    }
  }

  /** The twin critic's estimates for the current (state, goal, third) triples of a batch. */
  function Estimates(nets: Nets, critic: seq<real>, b: CriticInputs): (qs: seq<Heads>)
    requires WellFormed(b)
    ensures |qs| == |b.state|
  {
    seq(|b.state|, i requires 0 <= i < |b.state| => nets.critic(critic, b.state[i], b.goal[i], b.third[i]))
  }

  function FirstHeads(qs: seq<Heads>): (q1s: seq<real>)
    ensures |q1s| == |qs| && forall i :: 0 <= i < |qs| ==> q1s[i] == qs[i].q1
  {
    seq(|qs|, i requires 0 <= i < |qs| => qs[i].q1)
  }

  function SecondHeads(qs: seq<Heads>): (q2s: seq<real>)
    ensures |q2s| == |qs| && forall i :: 0 <= i < |qs| ==> q2s[i] == qs[i].q2
  {
    seq(|qs|, i requires 0 <= i < |qs| => qs[i].q2)
  }

  /** The critic loss of a batch: the squared error of both heads against the TD targets. */
  function CriticLoss(nets: Nets, critic: seq<real>, b: CriticInputs, ys: seq<real>): (loss: real)
    requires WellFormed(b) && |ys| == |b.state|
    ensures loss >= 0.0
  {
    var qs := Estimates(nets, critic, b);
    MeanSquaredError(FirstHeads(qs), ys) + MeanSquaredError(SecondHeads(qs), ys)
  }

  /** The critic loss is zero exactly when both heads already predict every target. */
  lemma CriticLossZero(nets: Nets, critic: seq<real>, b: CriticInputs, ys: seq<real>)
    requires WellFormed(b) && |ys| == |b.state|
    ensures CriticLoss(nets, critic, b, ys) == 0.0 <==>
              forall i :: 0 <= i < |ys| ==>
                nets.critic(critic, b.state[i], b.goal[i], b.third[i]) == Heads(ys[i], ys[i])
  {
    var qs := Estimates(nets, critic, b);
    var q1s, q2s := FirstHeads(qs), SecondHeads(qs);
    MeanSquaredErrorZero(q1s, ys);
    MeanSquaredErrorZero(q2s, ys);
    if forall i :: 0 <= i < |ys| ==> qs[i] == Heads(ys[i], ys[i]) {
      assert q1s == ys && q2s == ys;
    }
  }

  /** The first-head values the critic gives the actor's own proposals, one per batch element. */
  function ActorValues(nets: Nets, actor: seq<real>, critic: seq<real>, b: CriticInputs): (qs: seq<real>)
    requires WellFormed(b)
    ensures |qs| == |b.state|
  {
    seq(|b.state|, i requires 0 <= i < |b.state| =>
      nets.critic(critic, b.state[i], b.goal[i], nets.actor(actor, b.state[i], b.goal[i])).q1)
  }

  /** The actor loss: minus the mean first-head value of the actor's own proposals. */
  function ActorLoss(nets: Nets, actor: seq<real>, critic: seq<real>, b: CriticInputs): (l: real)
    requires WellFormed(b)
    // minus an average: lowering the loss means raising the values the critic gives the actor
    ensures -SeqMax(ActorValues(nets, actor, critic, b)) <= l <= -SeqMin(ActorValues(nets, actor, critic, b))
  {
    MeanBetween(ActorValues(nets, actor, critic, b));
    -Mean(ActorValues(nets, actor, critic, b))
  }

  /** One Polyak step `tau * online + (1 - tau) * target`, parameter by parameter. */
  function Polyak(target: seq<real>, online: seq<real>, tau: real): (r: seq<real>)
    requires |target| == |online|
    ensures |r| == |target|
    // the value of each parameter is stated by SoftUpdate and SoftUpdatesTowardsFixed
  {
    seq(|target|, i requires 0 <= i < |target| => tau * online[i] + (1.0 - tau) * target[i])
  }

  /** For `tau` in [0, 1] each new target parameter lies between the online and the old target one. */
  lemma PolyakBetween(target: seq<real>, online: seq<real>, tau: real, i: nat)
    requires |target| == |online| && i < |target| && 0.0 <= tau <= 1.0
    ensures Min(online[i], target[i]) <= Polyak(target, online, tau)[i] <= Max(online[i], target[i])
  {
    var p, t := online[i], target[i];
    var r := Polyak(target, online, tau)[i];
    if p <= t {
      assert r - p == (1.0 - tau) * (t - p);
      assert t - r == tau * (t - p);
      NonNegativeProduct(1.0 - tau, t - p);
      NonNegativeProduct(tau, t - p);
    } else {
      assert p - r == (1.0 - tau) * (p - t);
      assert r - t == tau * (p - t);
      NonNegativeProduct(1.0 - tau, p - t);
      NonNegativeProduct(tau, p - t);
    }
  }

  /** With `tau = 1` the target becomes the online parameters. */
  lemma PolyakFull(target: seq<real>, online: seq<real>)
    requires |target| == |online|
    ensures Polyak(target, online, 1.0) == online
  {
  }

  /** A target that agrees with the online parameters keeps agreeing, for any `tau`. */
  lemma PolyakFixedPoint(online: seq<real>, tau: real)
    ensures Polyak(online, online, tau) == online
  {
    forall i | 0 <= i < |online| ensures Polyak(online, online, tau)[i] == online[i] {
      assert tau * online[i] + (1.0 - tau) * online[i] == online[i];
    }
  }

  /** In place: `target_param.data.copy_(tau * param.data + (1 - tau) * target_param.data)`. */
  method SoftUpdate(target: array<real>, online: seq<real>, tau: real)
    requires target.Length == |online|
    modifies target
    ensures target[..] == Polyak(old(target[..]), online, tau)
  {
    for i := 0 to target.Length
      invariant forall j :: 0 <= j < i ==> target[j] == tau * online[j] + (1.0 - tau) * old(target[j])
      invariant forall j :: i <= j < target.Length ==> target[j] == old(target[j])
    {
      target[i] := tau * online[i] + (1.0 - tau) * target[i];
    }
    ghost var before := old(target[..]);
    assert forall j :: 0 <= j < target.Length ==> before[j] == old(target[j]);
    assert forall j :: 0 <= j < target.Length ==> target[..][j] == Polyak(before, online, tau)[j];
  }

  /** The parameters after one iteration: the online networks are where the optimiser steps left
      them and each target network has taken one Polyak step towards its online network. */
  function Step(p: Snapshot, o: Optimised, tau: real): (q: Snapshot)
    requires Shaped(p) && Fits(p, o)
    ensures Shaped(q) && |q.actor| == |p.actor| && |q.critic| == |p.critic|
  {
    Snapshot(o.actor, Polyak(p.actorTarget, o.actor, tau), o.critic, Polyak(p.criticTarget, o.critic, tau))
  }

  /** The parameters after the first `n` iterations, which left the online parameters `os[..n]`. */
  function ParamsAt(p: Snapshot, os: seq<Optimised>, tau: real, n: nat): (q: Snapshot)
    requires Shaped(p) && n <= |os| && forall k :: 0 <= k < |os| ==> Fits(p, os[k])
    ensures Shaped(q) && |q.actor| == |p.actor| && |q.critic| == |p.critic|
  {
    if n == 0 then p else Step(ParamsAt(p, os, tau, n - 1), os[n - 1], tau)
  }

  /** The batches of a run and the optimiser results of its iterations agree in number and shape. */
  predicate Schedule(p: Snapshot, bs: seq<CriticInputs>, os: seq<Optimised>)
  {
    && Shaped(p) && |bs| == |os|
    && forall k :: 0 <= k < |bs| ==> WellFormed(bs[k]) && Fits(p, os[k])
  }

  /** The critic loss of iteration `k`: the critic before its step against TD targets computed by
      the target networks as they were when the iteration began. */
  function CriticLossAt(nets: Nets, p: Snapshot, bs: seq<CriticInputs>, os: seq<Optimised>,
                        discount: real, tau: real, k: nat): (loss: real)
    requires Schedule(p, bs, os) && k < |bs|
    ensures loss >= 0.0
  {
    var q := ParamsAt(p, os, tau, k);
    CriticLoss(nets, q.critic, bs[k], TDTargets(nets, q, bs[k], discount))
  }

  /** The actor loss of iteration `k`: the actor before its step, scored by the stepped critic. */
  function ActorLossAt(nets: Nets, p: Snapshot, bs: seq<CriticInputs>, os: seq<Optimised>,
                       tau: real, k: nat): real
    requires Schedule(p, bs, os) && k < |bs|
  {
    ActorLoss(nets, ParamsAt(p, os, tau, k).actor, os[k].critic, bs[k])
  }

  /** The critic losses of the first `n` iterations, summed in order. */
  function CriticLossSum(nets: Nets, p: Snapshot, bs: seq<CriticInputs>, os: seq<Optimised>,
                         discount: real, tau: real, n: nat): real
    requires Schedule(p, bs, os) && n <= |bs|
  {
    if n == 0 then 0.0
    else CriticLossSum(nets, p, bs, os, discount, tau, n - 1) + CriticLossAt(nets, p, bs, os, discount, tau, n - 1)
  }

  /** The actor losses of the first `n` iterations, summed in order. */
  function ActorLossSum(nets: Nets, p: Snapshot, bs: seq<CriticInputs>, os: seq<Optimised>,
                        tau: real, n: nat): real
    requires Schedule(p, bs, os) && n <= |bs|
  {
    if n == 0 then 0.0
    else ActorLossSum(nets, p, bs, os, tau, n - 1) + ActorLossAt(nets, p, bs, os, tau, n - 1)
  }

  /** Iteration `n` in terms of what it starts from: one `Step`, and one loss added to each sum. */
  lemma IterationStep(nets: Nets, p: Snapshot, bs: seq<CriticInputs>, os: seq<Optimised>,
                      discount: real, tau: real, n: nat)
    requires Schedule(p, bs, os) && n < |bs|
    ensures ParamsAt(p, os, tau, n + 1) == Step(ParamsAt(p, os, tau, n), os[n], tau)
    ensures ActorLossSum(nets, p, bs, os, tau, n + 1)
         == ActorLossSum(nets, p, bs, os, tau, n) + ActorLoss(nets, ParamsAt(p, os, tau, n).actor, os[n].critic, bs[n])
    ensures CriticLossSum(nets, p, bs, os, discount, tau, n + 1)
         == CriticLossSum(nets, p, bs, os, discount, tau, n)
            + CriticLoss(nets, ParamsAt(p, os, tau, n).critic, bs[n], TDTargets(nets, ParamsAt(p, os, tau, n), bs[n], discount))
  {
  }

  /** A critic loss is never negative, so neither is their sum. */
  lemma {:induction false} CriticLossSumNonNegative(nets: Nets, p: Snapshot, bs: seq<CriticInputs>,
                                                    os: seq<Optimised>, discount: real, tau: real, n: nat)
    requires Schedule(p, bs, os) && n <= |bs|
    ensures CriticLossSum(nets, p, bs, os, discount, tau, n) >= 0.0
  {
    if n > 0 {
      CriticLossSumNonNegative(nets, p, bs, os, discount, tau, n - 1);
    }
  }

  /** The targets after a sequence of Polyak steps towards `onlines`. */
  function SoftUpdates(target: seq<real>, onlines: seq<seq<real>>, tau: real): (r: seq<real>)
    requires forall k :: 0 <= k < |onlines| ==> |onlines[k]| == |target|
    ensures |r| == |target|
    decreases |onlines|
  {
    if |onlines| == 0 then target
    else
      var n := |onlines| - 1;
      Polyak(SoftUpdates(target, onlines[..n], tau), onlines[n], tau)
  }

  function CriticsOf(os: seq<Optimised>): (cs: seq<seq<real>>)
    ensures |cs| == |os| && forall k :: 0 <= k < |os| ==> cs[k] == os[k].critic
  {
    seq(|os|, k requires 0 <= k < |os| => os[k].critic)
  }

  function ActorsOf(os: seq<Optimised>): (as_: seq<seq<real>>)
    ensures |as_| == |os| && forall k :: 0 <= k < |os| ==> as_[k] == os[k].actor
  {
    seq(|os|, k requires 0 <= k < |os| => os[k].actor)
  }


  /** The target networks of a run depend on the online parameters alone: each is the Polyak fold
      of its online network's parameters, and the online networks end where the optimiser left
      them. */
  lemma {:induction false} ParamsAtTargets(p: Snapshot, os: seq<Optimised>, tau: real, n: nat)
    requires Shaped(p) && n <= |os| && forall k :: 0 <= k < |os| ==> Fits(p, os[k])
    ensures ParamsAt(p, os, tau, n).criticTarget == SoftUpdates(p.criticTarget, CriticsOf(os[..n]), tau)
    ensures ParamsAt(p, os, tau, n).actorTarget == SoftUpdates(p.actorTarget, ActorsOf(os[..n]), tau)
    ensures n > 0 ==> ParamsAt(p, os, tau, n).critic == os[n - 1].critic
    ensures n > 0 ==> ParamsAt(p, os, tau, n).actor == os[n - 1].actor
  {
    if n > 0 {
      ParamsAtTargets(p, os, tau, n - 1);
      assert CriticsOf(os[..n])[..n - 1] == CriticsOf(os[..n - 1]);
      assert ActorsOf(os[..n])[..n - 1] == ActorsOf(os[..n - 1]);
    }
  }

  /** For `tau` in [0, 1] a target parameter never leaves an interval that holds its starting value
      and every online value it is moved towards. */
  lemma {:induction false} SoftUpdatesStayBetween(target: seq<real>, onlines: seq<seq<real>>, tau: real,
                                                  i: nat, lo: real, hi: real)
    requires forall k :: 0 <= k < |onlines| ==> |onlines[k]| == |target|
    requires 0.0 <= tau <= 1.0 && i < |target|
    requires lo <= target[i] <= hi
    requires forall k :: 0 <= k < |onlines| ==> lo <= onlines[k][i] <= hi
    ensures lo <= SoftUpdates(target, onlines, tau)[i] <= hi
    decreases |onlines|
  {
    if |onlines| > 0 {
      var n := |onlines| - 1;
      var before := SoftUpdates(target, onlines[..n], tau);
      SoftUpdatesStayBetween(target, onlines[..n], tau, i, lo, hi);
      PolyakBetween(before, onlines[n], tau, i);
    }
  }

  /** With `tau = 1` the targets equal the last online parameters. */
  lemma SoftUpdatesFull(target: seq<real>, onlines: seq<seq<real>>)
    requires forall k :: 0 <= k < |onlines| ==> |onlines[k]| == |target|
    requires |onlines| > 0
    ensures SoftUpdates(target, onlines, 1.0) == onlines[|onlines| - 1]
  {
    var n := |onlines| - 1;
    PolyakFull(SoftUpdates(target, onlines[..n], 1.0), onlines[n]);
  }

  function Pow(x: real, n: nat): real
  {
    if n == 0 then 1.0 else x * Pow(x, n - 1)
  }

  /** One parameter after `n` Polyak steps from `start` towards the fixed online value `p`. */
  function Ema(start: real, p: real, tau: real, n: nat): real
  {
    if n == 0 then start else tau * p + (1.0 - tau) * Ema(start, p, tau, n - 1)
  }

  /** The closed form of the moving average: the gap to `p` shrinks by `(1 - tau)` per step. */
  lemma {:induction false} EmaClosedForm(start: real, p: real, tau: real, n: nat)
    ensures Ema(start, p, tau, n) == p + Pow(1.0 - tau, n) * (start - p)
  {
    if n > 0 {
      EmaClosedForm(start, p, tau, n - 1);
      EmaStep(start, p, tau, n);
    }
  }

  /** The induction step of `EmaClosedForm`: the closed form carries over one more Polyak step. */
  lemma EmaStep(start: real, p: real, tau: real, n: nat)
    requires n > 0 && Ema(start, p, tau, n - 1) == p + Pow(1.0 - tau, n - 1) * (start - p)
    ensures Ema(start, p, tau, n) == p + Pow(1.0 - tau, n) * (start - p)
  {
    BlendTowards(tau, p, Pow(1.0 - tau, n - 1), start - p, Ema(start, p, tau, n - 1),
                 Ema(start, p, tau, n), Pow(1.0 - tau, n));
  }

  /** One Polyak step towards `p` from `p + c * d` leaves `p + ((1 - tau) * c) * d`. */
  lemma BlendTowards(tau: real, p: real, c: real, d: real, t: real, next: real, c2: real)
    requires t == p + c * d && next == tau * p + (1.0 - tau) * t && c2 == (1.0 - tau) * c
    ensures next == p + c2 * d
  {
    assert (1.0 - tau) * (c * d) == ((1.0 - tau) * c) * d;
  }

  /** While the online parameters stay fixed, each target parameter follows `Ema`. */
  lemma {:induction false} SoftUpdatesAreEma(target: seq<real>, online: seq<real>, onlines: seq<seq<real>>,
                                             tau: real, i: nat)
    requires |online| == |target| && i < |target|
    requires forall k :: 0 <= k < |onlines| ==> onlines[k] == online
    ensures SoftUpdates(target, onlines, tau)[i] == Ema(target[i], online[i], tau, |onlines|)
    decreases |onlines|
  {
    if |onlines| > 0 {
      var n := |onlines| - 1;
      SoftUpdatesAreEma(target, online, onlines[..n], tau, i);
      assert |onlines[..n]| == n;
    }
  }

  /** The exponential moving average: after `n` steps towards the same online parameters the gap
      between target and online has shrunk by the factor `(1 - tau)^n`. */
  lemma SoftUpdatesTowardsFixed(target: seq<real>, online: seq<real>, onlines: seq<seq<real>>,
                                tau: real, i: nat)
    requires |online| == |target| && i < |target|
    requires forall k :: 0 <= k < |onlines| ==> onlines[k] == online
    ensures SoftUpdates(target, onlines, tau)[i]
         == online[i] + Pow(1.0 - tau, |onlines|) * (target[i] - online[i])
  {
    SoftUpdatesAreEma(target, online, onlines, tau, i);
    EmaClosedForm(target[i], online[i], tau, |onlines|);
  }

  /** Targets that start as a copy of the online parameters stay equal to them while the online
      parameters do not move. */
  lemma SoftUpdatesKeepCopy(online: seq<real>, onlines: seq<seq<real>>, tau: real)
    requires forall k :: 0 <= k < |onlines| ==> onlines[k] == online
    ensures SoftUpdates(online, onlines, tau) == online
  {
    forall i | 0 <= i < |online| ensures SoftUpdates(online, onlines, tau)[i] == online[i] {
      SoftUpdatesTowardsFixed(online, online, onlines, tau, i);
    }
  }
}
