/** The high-level Manager: off-policy goal relabelling and the Manager's training loop. The
    Manager proposes subgoals; because the Controller keeps learning, a subgoal stored in the
    replay buffer may no longer explain the actions logged with it, so training first replaces it
    by the candidate under which the current Controller best reproduces those actions. */
module Manager {
  import opened Vectors
  import opened ActorCritic
  import Controller

  /** A controller policy as the Manager sees it: select_action from (state, subgoal). */
  type Policy = (Vec, Vec) -> Vec

  /** Every proposal of `policy` has `n` components. */
  ghost predicate Emits(policy: Policy, n: nat)
  {
    forall s: Vec, g: Vec :: |policy(s, g)| == n
  }

  /** numpy's `clip(-scale, scale)`, which is `minimum(maximum(v, -scale), scale)`. */
  function Clip(v: Vec, scale: Vec): (c: Vec)
    requires |v| == |scale|
    ensures |c| == |v|
    // with a non-negative scale the result lies in the box ...
    ensures NonNegative(scale) ==> InBounds(c, scale)
    // ... a component already inside it is kept ...
    ensures forall i :: 0 <= i < |v| && -scale[i] <= v[i] <= scale[i] ==> c[i] == v[i]
    // ... and one outside is moved to the nearer bound
    ensures forall i :: 0 <= i < |v| && v[i] > scale[i] ==> c[i] == scale[i]
    ensures forall i :: 0 <= i < |v| && v[i] < -scale[i] && scale[i] >= 0.0 ==> c[i] == -scale[i]
  {
    seq(|v|, i requires 0 <= i < |v| => Min(Max(v[i], -scale[i]), scale[i]))
  }

  /** A Gaussian draw with mean `mean` and standard deviation `0.5 * scale`, written through the
      standard-normal variate `z` it was drawn from. */
  function Perturbed(mean: Vec, scale: Vec, z: Vec): (v: Vec)
    requires |mean| == |scale| == |z|
    ensures |v| == |mean|
    ensures z == Zero(|z|) ==> v == mean
  {
    seq(|mean|, i requires 0 <= i < |mean| => mean[i] + 0.5 * scale[i] * z[i])
  }

  /** What the trajectory achieved: its last state minus its first. */
  function Displacement(states: seq<Vec>): (d: Vec)
    requires |states| > 0 && |states[|states| - 1]| == |states[0]|
    ensures |d| == |states[0]|
    ensures Add(states[0], d) == states[|states| - 1]
  {
    Sub(states[|states| - 1], states[0])
  }

  /** The candidate subgoals of one batch element: the stored subgoal, the displacement, and one
      clipped draw around the displacement per row of `draws`. */
  function Candidates(subgoal: Vec, states: seq<Vec>, draws: seq<Vec>, scale: Vec): (cs: seq<Vec>)
    requires |states| > 0 && |subgoal| == |scale|
    requires forall t :: 0 <= t < |states| ==> |states[t]| == |scale|
    requires forall k :: 0 <= k < |draws| ==> |draws[k]| == |scale|
    ensures |cs| == 2 + |draws|
    ensures forall c :: 0 <= c < |cs| ==> |cs[c]| == |scale|
    ensures cs[0] == subgoal
    ensures cs[1] == Displacement(states)
    ensures forall k :: 0 <= k < |draws| ==> cs[2 + k] == Clip(Perturbed(Displacement(states), scale, draws[k]), scale)
    // the random candidates lie in [-scale, scale]; the first two are not clipped
    ensures NonNegative(scale) ==> forall k :: 2 <= k < |cs| ==> InBounds(cs[k], scale)
  {
    var d := Displacement(states);
    [subgoal, d] + seq(|draws|, k requires 0 <= k < |draws| => Clip(Perturbed(d, scale, draws[k]), scale))
  }

  /** `x_seq[:, :-1, :]` for one trajectory: the last state is not simulated. */
  function Init(states: seq<Vec>): (init: seq<Vec>)
    requires |states| > 0
    ensures |init| == |states| - 1
    ensures forall t :: 0 <= t < |init| ==> init[t] == states[t]
  {
    states[..|states| - 1]
  }

  /** The controller's proposals at the states of one trajectory when `subgoal` was issued at its
      first state and carried along by multi_subgoal_transition. */
  function ProposalsAlong(policy: Policy, states: seq<Vec>, subgoal: Vec): (acts: seq<Vec>)
    requires |states| > 0 && Controller.Aligned(states, subgoal)
    ensures |acts| == |states|
    ensures forall t :: 0 <= t < |states| ==>
              acts[t] == policy(states[t], Sub(Add(subgoal, states[0]), states[t]))
  {
    var sgs := Controller.SubgoalsAlong(states, subgoal);
    seq(|states|, t requires 0 <= t < |states| => policy(states[t], sgs[t]))
  }

  /** The summed squared distances between two sequences of vectors, step by step. */
  function TotalSqDistance(u: seq<Vec>, v: seq<Vec>): real
    requires |u| == |v| && forall t :: 0 <= t < |u| ==> |u[t]| == |v[t]|
  {
    if |u| == 0 then 0.0
    else
      var n := |u| - 1;
      TotalSqDistance(u[..n], v[..n]) + SqNorm(Sub(u[n], v[n]))
  }

  /** The summed squared distance is never negative and vanishes exactly on equal sequences. */
  lemma {:induction false} TotalSqDistanceZero(u: seq<Vec>, v: seq<Vec>)
    requires |u| == |v| && forall t :: 0 <= t < |u| ==> |u[t]| == |v[t]|
    ensures TotalSqDistance(u, v) >= 0.0
    ensures TotalSqDistance(u, v) == 0.0 <==> u == v
  {
    if |u| > 0 {
      var n := |u| - 1;
      TotalSqDistanceZero(u[..n], v[..n]);
      SqNormSubZero(u[n], v[n]);
      if u[..n] == v[..n] && u[n] == v[n] {
        assert u == u[..n] + [u[n]] && v == v[..n] + [v[n]];
      }
    }
  }

  /** The log-probability score `-0.5 * sum_t ||proposal_t - action_t||^2`. */
  function Score(proposals: seq<Vec>, actions: seq<Vec>): (s: real)
    requires |proposals| == |actions| && forall t :: 0 <= t < |actions| ==> |proposals[t]| == |actions[t]|
    // a log-probability under a fixed-variance Gaussian: never positive
    ensures s <= 0.0
  {
    TotalSqDistanceZero(proposals, actions);
    -0.5 * TotalSqDistance(proposals, actions)
  }

  /** A score is at most zero, and zero exactly when every proposal is the logged action. */
  lemma ScoreAtMostZero(proposals: seq<Vec>, actions: seq<Vec>)
    requires |proposals| == |actions| && forall t :: 0 <= t < |actions| ==> |proposals[t]| == |actions[t]|
    ensures Score(proposals, actions) <= 0.0
    ensures Score(proposals, actions) == 0.0 <==> proposals == actions
  {
    TotalSqDistanceZero(proposals, actions);
  }

  /** The shapes one batch element must have for the relabelling arithmetic: `states` is the stored
      trajectory (at least two states, so that one is left once the last is dropped), `actions`
      the `a`-dimensional actions logged between its states, and `draws` one standard-normal row
      per random candidate. */
  predicate ElementShaped(subgoal: Vec, states: seq<Vec>, actions: seq<Vec>, draws: seq<Vec>,
                          scale: Vec, candidateGoals: nat, a: nat)
  {
    && |subgoal| == |scale| && |states| >= 2 && |actions| == |states| - 1 && |draws| == candidateGoals
    && (forall t :: 0 <= t < |states| ==> |states[t]| == |scale|)
    && (forall t :: 0 <= t < |actions| ==> |actions[t]| == a)
    && (forall k :: 0 <= k < |draws| ==> |draws[k]| == |scale|)
  }

  /** The score of one candidate of one batch element. */
  function CandidateScore(policy: Policy, states: seq<Vec>, actions: seq<Vec>, a: nat, subgoal: Vec): real
    requires |states| > 0 && Controller.Aligned(states, subgoal) && |actions| == |states|
    requires Emits(policy, a) && forall t :: 0 <= t < |actions| ==> |actions[t]| == a
  {
    Score(ProposalsAlong(policy, states, subgoal), actions)
  }

  /** The scores of all candidates of one batch element, in candidate order. */
  function CandidateScores(policy: Policy, states: seq<Vec>, actions: seq<Vec>, a: nat, cands: seq<Vec>): (scores: seq<real>)
    requires |states| > 0 && |actions| == |states|
    requires forall c :: 0 <= c < |cands| ==> Controller.Aligned(states, cands[c])
    requires Emits(policy, a) && forall t :: 0 <= t < |actions| ==> |actions[t]| == a
    ensures |scores| == |cands|
    ensures forall c :: 0 <= c < |cands| ==> scores[c] == CandidateScore(policy, states, actions, a, cands[c])
  {
    seq(|cands|, c requires 0 <= c < |cands| => CandidateScore(policy, states, actions, a, cands[c]))
  }

  /** np.argmax: the first index of a largest entry. */
  function FirstArgmax(s: seq<real>): (i: nat)
    requires |s| > 0
    ensures i < |s|
    ensures forall j :: 0 <= j < |s| ==> s[j] <= s[i]
    ensures forall j :: 0 <= j < i ==> s[j] < s[i]
  {
    if |s| == 1 then 0
    else
      var k := FirstArgmax(s[..|s| - 1]);
      assert forall j :: 0 <= j < |s| - 1 ==> s[..|s| - 1][j] == s[j];
      if s[|s| - 1] > s[k] then |s| - 1 else k
  }

  /** When no entry beats the first, np.argmax picks the first. */
  lemma FirstArgmaxOfLeading(s: seq<real>)
    requires |s| > 0 && forall j :: 0 <= j < |s| ==> s[j] <= s[0]
    ensures FirstArgmax(s) == 0
  {
    var i := FirstArgmax(s);
    assert s[i] <= s[0];
  }

  /** The subgoal kept for one batch element: its best-scoring candidate, the first on a tie. */
  function Choose(policy: Policy, subgoal: Vec, states: seq<Vec>, actions: seq<Vec>,
                  draws: seq<Vec>, scale: Vec, candidateGoals: nat, a: nat): (g: Vec)
    requires ElementShaped(subgoal, states, actions, draws, scale, candidateGoals, a) && Emits(policy, a)
    ensures |g| == |scale|
  {
    var cands := Candidates(subgoal, states, draws, scale);
    CandidatesAligned(subgoal, states, draws, scale);
    cands[FirstArgmax(CandidateScores(policy, Init(states), actions, a, cands))]
  }

  /** Every candidate has a component for each component of the trajectory's states. */
  lemma CandidatesAligned(subgoal: Vec, states: seq<Vec>, draws: seq<Vec>, scale: Vec)
    requires |states| >= 2 && |subgoal| == |scale|
    requires forall t :: 0 <= t < |states| ==> |states[t]| == |scale|
    requires forall k :: 0 <= k < |draws| ==> |draws[k]| == |scale|
    ensures forall c :: 0 <= c < 2 + |draws| ==>
              Controller.Aligned(Init(states), Candidates(subgoal, states, draws, scale)[c])
  {
  }

  /** The chosen subgoal is one of the element's own candidates: the stored subgoal, the
      displacement, or one of the clipped draws. */
  lemma ChosenIsCandidate(policy: Policy, subgoal: Vec, states: seq<Vec>, actions: seq<Vec>,
                          draws: seq<Vec>, scale: Vec, candidateGoals: nat, a: nat)
    requires ElementShaped(subgoal, states, actions, draws, scale, candidateGoals, a) && Emits(policy, a)
    ensures var g := Choose(policy, subgoal, states, actions, draws, scale, candidateGoals, a);
            || g == subgoal
            || g == Displacement(states)
            || exists k :: 0 <= k < |draws| && g == Clip(Perturbed(Displacement(states), scale, draws[k]), scale)
  {
    var cands := Candidates(subgoal, states, draws, scale);
    CandidatesAligned(subgoal, states, draws, scale);
    var i := FirstArgmax(CandidateScores(policy, Init(states), actions, a, cands));
    if i >= 2 {
      assert cands[2 + (i - 2)] == Clip(Perturbed(Displacement(states), scale, draws[i - 2]), scale);
    }
  }

  /** The chosen subgoal scores at least as well as every candidate, the stored subgoal and the
      displacement among them. */
  lemma ChosenIsBest(policy: Policy, subgoal: Vec, states: seq<Vec>, actions: seq<Vec>,
                     draws: seq<Vec>, scale: Vec, candidateGoals: nat, a: nat)
    requires ElementShaped(subgoal, states, actions, draws, scale, candidateGoals, a) && Emits(policy, a)
    ensures var g := Choose(policy, subgoal, states, actions, draws, scale, candidateGoals, a);
            && Controller.Aligned(Init(states), g)
            && forall c :: 0 <= c < 2 + candidateGoals ==>
                 var cand := Candidates(subgoal, states, draws, scale)[c];
                 Controller.Aligned(Init(states), cand)
                 && CandidateScore(policy, Init(states), actions, a, cand)
                    <= CandidateScore(policy, Init(states), actions, a, g)
  {
    var cands := Candidates(subgoal, states, draws, scale);
    CandidatesAligned(subgoal, states, draws, scale);
    var scores := CandidateScores(policy, Init(states), actions, a, cands);
    var i := FirstArgmax(scores);
    assert Choose(policy, subgoal, states, actions, draws, scale, candidateGoals, a) == cands[i];
  }

  /** The stored subgoal is kept whenever no candidate scores better than it: ties go to it. */
  lemma TieKeepsSubgoal(policy: Policy, subgoal: Vec, states: seq<Vec>, actions: seq<Vec>,
                        draws: seq<Vec>, scale: Vec, candidateGoals: nat, a: nat)
    requires ElementShaped(subgoal, states, actions, draws, scale, candidateGoals, a) && Emits(policy, a)
    requires var cands := Candidates(subgoal, states, draws, scale);
             (forall c :: 0 <= c < |cands| ==> Controller.Aligned(Init(states), cands[c]))
             && forall c :: 0 <= c < |cands| ==>
                  CandidateScore(policy, Init(states), actions, a, cands[c])
                  <= CandidateScore(policy, Init(states), actions, a, subgoal)
    ensures Choose(policy, subgoal, states, actions, draws, scale, candidateGoals, a) == subgoal
  {
    var cands := Candidates(subgoal, states, draws, scale);
    FirstArgmaxOfLeading(CandidateScores(policy, Init(states), actions, a, cands));
  }

  /** A stored subgoal under which the controller reproduces every logged action is kept. */
  lemma ExactSubgoalIsKept(policy: Policy, subgoal: Vec, states: seq<Vec>, actions: seq<Vec>,
                           draws: seq<Vec>, scale: Vec, candidateGoals: nat, a: nat)
    requires ElementShaped(subgoal, states, actions, draws, scale, candidateGoals, a) && Emits(policy, a)
    requires ProposalsAlong(policy, Init(states), subgoal) == actions
    ensures Choose(policy, subgoal, states, actions, draws, scale, candidateGoals, a) == subgoal
  {
    var cands := Candidates(subgoal, states, draws, scale);
    CandidatesAligned(subgoal, states, draws, scale);
    ScoreAtMostZero(ProposalsAlong(policy, Init(states), subgoal), actions);
    forall c | 0 <= c < |cands|
      ensures CandidateScore(policy, Init(states), actions, a, cands[c])
              <= CandidateScore(policy, Init(states), actions, a, subgoal)
    {
      ScoreAtMostZero(ProposalsAlong(policy, Init(states), cands[c]), actions);
    }
    TieKeepsSubgoal(policy, subgoal, states, actions, draws, scale, candidateGoals, a);
  }

  /** Every candidate lies in [-scale, scale] when the two unclipped ones do. */
  lemma CandidatesInBounds(subgoal: Vec, states: seq<Vec>, draws: seq<Vec>, scale: Vec)
    requires |states| > 0 && |subgoal| == |scale|
    requires forall t :: 0 <= t < |states| ==> |states[t]| == |scale|
    requires forall k :: 0 <= k < |draws| ==> |draws[k]| == |scale|
    requires NonNegative(scale) && InBounds(subgoal, scale) && InBounds(Displacement(states), scale)
    ensures forall c :: 0 <= c < 2 + |draws| ==> InBounds(Candidates(subgoal, states, draws, scale)[c], scale)
  {
  }

  /** The chosen subgoal lies in [-scale, scale] when the two unclipped candidates do. */
  lemma ChosenInBounds(policy: Policy, subgoal: Vec, states: seq<Vec>, actions: seq<Vec>,
                       draws: seq<Vec>, scale: Vec, candidateGoals: nat, a: nat)
    requires ElementShaped(subgoal, states, actions, draws, scale, candidateGoals, a) && Emits(policy, a)
    requires NonNegative(scale)
    requires InBounds(subgoal, scale) && InBounds(Displacement(states), scale)
    ensures InBounds(Choose(policy, subgoal, states, actions, draws, scale, candidateGoals, a), scale)
  {
    CandidatesInBounds(subgoal, states, draws, scale);
  }

  /** The action dimension of a batch, `a_seq[0][0].shape`. */
  function ActionDim(aSeq: seq<seq<Vec>>): nat
  {
    if |aSeq| > 0 && |aSeq[0]| > 0 then |aSeq[0][0]| else 0
  }

  /** The shapes off_policy_corrections needs of a whole batch: as many trajectories, action
      sequences and draws as subgoals, at least one of them, trajectories of one common length,
      actions of one dimension, and a scale the Gaussian draws accept. */
  predicate BatchShaped(subgoals: seq<Vec>, xSeq: seq<seq<Vec>>, aSeq: seq<seq<Vec>>,
                        noise: seq<seq<Vec>>, scale: Vec, candidateGoals: nat)
  {
    && |subgoals| > 0 && |xSeq| == |subgoals| && |aSeq| == |subgoals| && |noise| == |subgoals|
    && NonNegative(scale)
    && forall b :: 0 <= b < |subgoals| ==>
         |xSeq[b]| == |xSeq[0]|
         && ElementShaped(subgoals[b], xSeq[b], aSeq[b], noise[b], scale, candidateGoals, ActionDim(aSeq))
  }

  /** `candidates`: every batch element's candidates, batch × (2 + candidate_goals). */
  function CandidateArray(subgoals: seq<Vec>, xSeq: seq<seq<Vec>>, aSeq: seq<seq<Vec>>,
                          noise: seq<seq<Vec>>, scale: Vec, candidateGoals: nat): (cands: seq<seq<Vec>>)
    requires BatchShaped(subgoals, xSeq, aSeq, noise, scale, candidateGoals)
    ensures |cands| == |subgoals|
    ensures forall b :: 0 <= b < |subgoals| ==> cands[b] == Candidates(subgoals[b], xSeq[b], noise[b], scale)
  {
    seq(|subgoals|, b requires 0 <= b < |subgoals| => Candidates(subgoals[b], xSeq[b], noise[b], scale))
  }

  /** `x_seq[:, :-1, :]`: every trajectory without its last state. */
  function Truncated(xSeq: seq<seq<Vec>>): (xs: seq<seq<Vec>>)
    requires forall b :: 0 <= b < |xSeq| ==> |xSeq[b]| > 0
    ensures |xs| == |xSeq| && forall b :: 0 <= b < |xSeq| ==> xs[b] == Init(xSeq[b])
  {
    seq(|xSeq|, b requires 0 <= b < |xSeq| => Init(xSeq[b]))
  }

  /** One column of the candidate array: candidate `c` of every batch element. */
  function Column(cands: seq<seq<Vec>>, c: nat): (col: seq<Vec>)
    requires forall b :: 0 <= b < |cands| ==> c < |cands[b]|
    ensures |col| == |cands| && forall b :: 0 <= b < |cands| ==> col[b] == cands[b][c]
  {
    seq(|cands|, b requires 0 <= b < |cands| => cands[b][c])
  }

  /** A batch of trajectories and one subgoal per trajectory, every state aligned with its subgoal. */
  predicate Ready(xs: seq<seq<Vec>>, goals: seq<Vec>)
  {
    && |xs| == |goals|
    && (forall b :: 0 <= b < |xs| ==> |xs[b]| > 0)
    && forall b, t :: 0 <= b < |xs| && 0 <= t < |xs[b]| ==> |xs[b][t]| == |goals[b]|
  }

  /** `select_action(observations, multi_subgoal_transition(x_seq, goals))` over a whole batch. */
  function Proposals(policy: Policy, xs: seq<seq<Vec>>, goals: seq<Vec>): (acts: seq<seq<Vec>>)
    requires Ready(xs, goals)
    ensures |acts| == |xs|
  {
    var along := Controller.MultiSubgoalTransition(xs, goals);
    seq(|xs|, b requires 0 <= b < |xs| =>
      seq(|xs[b]|, t requires 0 <= t < |xs[b]| => policy(xs[b][t], along[b][t])))
  }

  /** The batched proposals are, element by element, the proposals along that element's own
      trajectory: batching the subgoal transition changes nothing. */
  lemma ProposalsAt(policy: Policy, xs: seq<seq<Vec>>, goals: seq<Vec>)
    requires Ready(xs, goals)
    ensures forall b :: 0 <= b < |xs| ==> Proposals(policy, xs, goals)[b] == ProposalsAlong(policy, xs[b], goals[b])
  {
    var along := Controller.MultiSubgoalTransition(xs, goals);
    var acts := Proposals(policy, xs, goals);
    forall b | 0 <= b < |xs| ensures acts[b] == ProposalsAlong(policy, xs[b], goals[b]) {
      forall t | 0 <= t < |xs[b]| ensures acts[b][t] == ProposalsAlong(policy, xs[b], goals[b])[t] {
        assert Add(xs[b][t], along[b][t]) == Add(xs[b][0], goals[b]);
        assert along[b][t] == Sub(Add(goals[b], xs[b][0]), xs[b][t]);
      }
    }
  }

  /** Every candidate column is aligned with the truncated trajectories. */
  lemma ColumnsReady(subgoals: seq<Vec>, xSeq: seq<seq<Vec>>, aSeq: seq<seq<Vec>>,
                     noise: seq<seq<Vec>>, scale: Vec, candidateGoals: nat)
    requires BatchShaped(subgoals, xSeq, aSeq, noise, scale, candidateGoals)
    ensures forall c :: 0 <= c < 2 + candidateGoals ==>
              Ready(Truncated(xSeq), Column(CandidateArray(subgoals, xSeq, aSeq, noise, scale, candidateGoals), c))
  {
  }

  /** `policy_actions`: for every candidate column, the controller's proposals along every
      truncated trajectory. */
  function Simulated(policy: Policy, subgoals: seq<Vec>, xSeq: seq<seq<Vec>>, aSeq: seq<seq<Vec>>,
                     noise: seq<seq<Vec>>, scale: Vec, candidateGoals: nat): (acts: seq<seq<seq<Vec>>>)
    requires BatchShaped(subgoals, xSeq, aSeq, noise, scale, candidateGoals)
    ensures |acts| == 2 + candidateGoals
    ensures forall c :: 0 <= c < |acts| ==> |acts[c]| == |subgoals|
    // entry [c][b] is element b simulated alone under its own candidate c
    ensures forall c, b :: 0 <= c < |acts| && 0 <= b < |subgoals| ==>
              Controller.Aligned(Init(xSeq[b]), Candidates(subgoals[b], xSeq[b], noise[b], scale)[c])
              && acts[c][b] == ProposalsAlong(policy, Init(xSeq[b]), Candidates(subgoals[b], xSeq[b], noise[b], scale)[c])
  {
    var cands := CandidateArray(subgoals, xSeq, aSeq, noise, scale, candidateGoals);
    var xs := Truncated(xSeq);
    ColumnsReady(subgoals, xSeq, aSeq, noise, scale, candidateGoals);
    ColumnProposals(policy, subgoals, xSeq, aSeq, noise, scale, candidateGoals);
    var acts := seq(2 + candidateGoals, c requires 0 <= c < 2 + candidateGoals => Proposals(policy, xs, Column(cands, c)));
    assert forall c, b :: 0 <= c < |acts| && 0 <= b < |subgoals| ==>
             Controller.Aligned(Init(xSeq[b]), Candidates(subgoals[b], xSeq[b], noise[b], scale)[c]);
    acts
  }

  /** Column c of the batched simulation holds, for every element, that element's own
      simulation under its candidate c. */
  lemma ColumnProposals(policy: Policy, subgoals: seq<Vec>, xSeq: seq<seq<Vec>>, aSeq: seq<seq<Vec>>,
                        noise: seq<seq<Vec>>, scale: Vec, candidateGoals: nat)
    requires BatchShaped(subgoals, xSeq, aSeq, noise, scale, candidateGoals)
    ensures forall c :: 0 <= c < 2 + candidateGoals ==>
              Ready(Truncated(xSeq), Column(CandidateArray(subgoals, xSeq, aSeq, noise, scale, candidateGoals), c))
    ensures forall c, b :: 0 <= c < 2 + candidateGoals && 0 <= b < |subgoals| ==>
              Controller.Aligned(Init(xSeq[b]), Candidates(subgoals[b], xSeq[b], noise[b], scale)[c])
              && Proposals(policy, Truncated(xSeq), Column(CandidateArray(subgoals, xSeq, aSeq, noise, scale, candidateGoals), c))[b]
                 == ProposalsAlong(policy, Init(xSeq[b]), Candidates(subgoals[b], xSeq[b], noise[b], scale)[c])
  {
    var cands := CandidateArray(subgoals, xSeq, aSeq, noise, scale, candidateGoals);
    var xs := Truncated(xSeq);
    ColumnsReady(subgoals, xSeq, aSeq, noise, scale, candidateGoals);
    forall c, b | 0 <= c < 2 + candidateGoals && 0 <= b < |subgoals|
      ensures Controller.Aligned(Init(xSeq[b]), Candidates(subgoals[b], xSeq[b], noise[b], scale)[c])
              && Proposals(policy, Truncated(xSeq), Column(CandidateArray(subgoals, xSeq, aSeq, noise, scale, candidateGoals), c))[b]
                 == ProposalsAlong(policy, Init(xSeq[b]), Candidates(subgoals[b], xSeq[b], noise[b], scale)[c])
    {
      CandidatesAligned(subgoals[b], xSeq[b], noise[b], scale);
      ProposalsAt(policy, xs, Column(cands, c));
      assert xs[b] == Init(xSeq[b]) && Column(cands, c)[b] == Candidates(subgoals[b], xSeq[b], noise[b], scale)[c];
    }
    assert forall c, b :: 0 <= c < 2 + candidateGoals && 0 <= b < |subgoals| ==>
              Controller.Aligned(Init(xSeq[b]), Candidates(subgoals[b], xSeq[b], noise[b], scale)[c]);
  }

  /** The proposals of every candidate column line up with the logged actions of every element. */
  predicate Fit(cands: seq<seq<Vec>>, acts: seq<seq<seq<Vec>>>, aSeq: seq<seq<Vec>>)
  {
    && |acts| > 0 && |cands| == |aSeq|
    && forall b :: 0 <= b < |cands| ==>
         |cands[b]| == |acts|
         && forall c :: 0 <= c < |acts| ==>
              b < |acts[c]| && |acts[c][b]| == |aSeq[b]|
              && forall t :: 0 <= t < |aSeq[b]| ==> |acts[c][b][t]| == |aSeq[b][t]|
  }

  /** The scores of batch element `b` under every candidate column's proposals. */
  function ColumnScores(acts: seq<seq<seq<Vec>>>, actions: seq<Vec>, b: nat): (scores: seq<real>)
    requires forall c :: 0 <= c < |acts| ==>
               b < |acts[c]| && |acts[c][b]| == |actions|
               && forall t :: 0 <= t < |actions| ==> |acts[c][b][t]| == |actions[t]|
    ensures |scores| == |acts|
    ensures forall c :: 0 <= c < |acts| ==> scores[c] == Score(acts[c][b], actions)
  {
    seq(|acts|, c requires 0 <= c < |acts| => Score(acts[c][b], actions))
  }

  /** `candidates[np.arange(batch_size), max_indices]`: each element's first best column. */
  function PickBest(cands: seq<seq<Vec>>, acts: seq<seq<seq<Vec>>>, aSeq: seq<seq<Vec>>): (r: seq<Vec>)
    requires Fit(cands, acts, aSeq)
    ensures |r| == |cands|
    // what each element keeps is stated by RelabelIsChoose and ChosenIsCandidate
  {
    seq(|cands|, b requires 0 <= b < |cands| => cands[b][FirstArgmax(ColumnScores(acts, aSeq[b], b))])
  }

  /** The simulated proposals fit the logged actions when the policy emits actions of their
      dimension. */
  lemma SimulatedFits(policy: Policy, subgoals: seq<Vec>, xSeq: seq<seq<Vec>>, aSeq: seq<seq<Vec>>,
                      noise: seq<seq<Vec>>, scale: Vec, candidateGoals: nat)
    requires BatchShaped(subgoals, xSeq, aSeq, noise, scale, candidateGoals) && Emits(policy, ActionDim(aSeq))
    ensures Fit(CandidateArray(subgoals, xSeq, aSeq, noise, scale, candidateGoals),
                Simulated(policy, subgoals, xSeq, aSeq, noise, scale, candidateGoals), aSeq)
  {
    var cands := CandidateArray(subgoals, xSeq, aSeq, noise, scale, candidateGoals);
    var acts := Simulated(policy, subgoals, xSeq, aSeq, noise, scale, candidateGoals);
    var xs := Truncated(xSeq);
    ColumnsReady(subgoals, xSeq, aSeq, noise, scale, candidateGoals);
    forall b, c | 0 <= b < |cands| && 0 <= c < |acts|
      ensures b < |acts[c]| && |acts[c][b]| == |aSeq[b]|
      ensures forall t :: 0 <= t < |aSeq[b]| ==> |acts[c][b][t]| == |aSeq[b][t]|
    {
      assert acts[c][b] == ProposalsAlong(policy, xs[b], cands[b][c]);
    }
  }

  /** What off_policy_corrections returns. */
  function Relabel(policy: Policy, subgoals: seq<Vec>, xSeq: seq<seq<Vec>>, aSeq: seq<seq<Vec>>,
                   noise: seq<seq<Vec>>, scale: Vec, candidateGoals: nat): (r: seq<Vec>)
    requires BatchShaped(subgoals, xSeq, aSeq, noise, scale, candidateGoals) && Emits(policy, ActionDim(aSeq))
    ensures |r| == |subgoals|
  {
    SimulatedFits(policy, subgoals, xSeq, aSeq, noise, scale, candidateGoals);
    PickBest(CandidateArray(subgoals, xSeq, aSeq, noise, scale, candidateGoals),
             Simulated(policy, subgoals, xSeq, aSeq, noise, scale, candidateGoals), aSeq)
  }

  /** Batch element `b` of the relabelled subgoals is that element's chosen candidate: the batched
      simulation scores each element's candidates exactly as simulating it alone would. */
  lemma RelabelIsChoose(policy: Policy, subgoals: seq<Vec>, xSeq: seq<seq<Vec>>, aSeq: seq<seq<Vec>>,
                        noise: seq<seq<Vec>>, scale: Vec, candidateGoals: nat, b: nat)
    requires BatchShaped(subgoals, xSeq, aSeq, noise, scale, candidateGoals) && Emits(policy, ActionDim(aSeq))
    requires b < |subgoals|
    ensures ElementShaped(subgoals[b], xSeq[b], aSeq[b], noise[b], scale, candidateGoals, ActionDim(aSeq))
    ensures Relabel(policy, subgoals, xSeq, aSeq, noise, scale, candidateGoals)[b]
         == Choose(policy, subgoals[b], xSeq[b], aSeq[b], noise[b], scale, candidateGoals, ActionDim(aSeq))
  {
    var cands := CandidateArray(subgoals, xSeq, aSeq, noise, scale, candidateGoals);
    var acts := Simulated(policy, subgoals, xSeq, aSeq, noise, scale, candidateGoals);
    var xs := Truncated(xSeq);
    var a := ActionDim(aSeq);
    SimulatedFits(policy, subgoals, xSeq, aSeq, noise, scale, candidateGoals);
    CandidatesAligned(subgoals[b], xSeq[b], noise[b], scale);
    ColumnsReady(subgoals, xSeq, aSeq, noise, scale, candidateGoals);
    forall c | 0 <= c < |acts|
      ensures ColumnScores(acts, aSeq[b], b)[c] == CandidateScores(policy, xs[b], aSeq[b], a, cands[b])[c]
    {
      assert acts[c][b] == ProposalsAlong(policy, xs[b], cands[b][c]);
    }
    assert ColumnScores(acts, aSeq[b], b) == CandidateScores(policy, xs[b], aSeq[b], a, cands[b]);
  }

  /** One replay sample of the Manager, `x, y, g, sgorig, r, d, xobs_seq, a_seq`: states, next
      states, goals, stored subgoals, rewards, done flags, and per element the trajectory the
      Controller walked and the actions it took on the way. */
  datatype Sample = Sample(x: seq<Vec>, y: seq<Vec>, g: seq<Vec>, sgOrig: seq<Vec>,
                           r: seq<real>, d: seq<real>, xobsSeq: seq<seq<Vec>>, aSeq: seq<seq<Vec>>)

  predicate SampleShaped(b: Sample)
  {
    var n := |b.x|;
    n > 0 && |b.y| == n && |b.g| == n && |b.sgOrig| == n && |b.r| == n && |b.d| == n
  }

  /** What the critics see: (state, goal, subgoal) now, the next state with the same goal. */
  function CriticInputsOf(b: Sample, sg: seq<Vec>): (c: CriticInputs)
    requires SampleShaped(b) && |sg| == |b.x|
    ensures WellFormed(c) && c.third == sg && c.nextGoal == c.goal
  {
    CriticInputs(b.x, b.g, sg, b.y, b.g, b.r, b.d)
  }

  /** The subgoals the critic is trained on: relabelled when `correction` is on, stored otherwise. */
  function SubgoalsOf(policy: Policy, b: Sample, noise: seq<seq<Vec>>, scale: Vec, candidateGoals: nat,
                      correction: bool): (sg: seq<Vec>)
    requires SampleShaped(b)
    requires correction ==> BatchShaped(b.sgOrig, b.xobsSeq, b.aSeq, noise, scale, candidateGoals)
                            && Emits(policy, ActionDim(b.aSeq))
    ensures |sg| == |b.sgOrig|
    ensures !correction ==> sg == b.sgOrig
    ensures correction ==> sg == Relabel(policy, b.sgOrig, b.xobsSeq, b.aSeq, noise, scale, candidateGoals)
  {
    if correction then Relabel(policy, b.sgOrig, b.xobsSeq, b.aSeq, noise, scale, candidateGoals)
    else b.sgOrig
  }

  /** The shapes one run of Manager.train needs: one draw array per sample, every sample shaped,
      and, when relabelling is on, every sample ready for off_policy_corrections. */
  ghost predicate RunShaped(policy: Policy, samples: seq<Sample>, noises: seq<seq<seq<Vec>>>, scale: Vec,
                            candidateGoals: nat, correction: bool)
  {
    && |noises| == |samples|
    && (forall k :: 0 <= k < |samples| ==> SampleShaped(samples[k]))
    && (correction ==> forall k :: 0 <= k < |samples| ==>
          BatchShaped(samples[k].sgOrig, samples[k].xobsSeq, samples[k].aSeq, noises[k], scale, candidateGoals)
          && Emits(policy, ActionDim(samples[k].aSeq)))
  }

  /** The critic inputs of every iteration of one Manager.train call. */
  function InputsOf(policy: Policy, samples: seq<Sample>, noises: seq<seq<seq<Vec>>>, scale: Vec,
                    candidateGoals: nat, correction: bool, n: nat): (cs: seq<CriticInputs>)
    requires n <= |samples| && RunShaped(policy, samples, noises, scale, candidateGoals, correction)
    ensures |cs| == n
    ensures forall k :: 0 <= k < |cs| ==> WellFormed(cs[k])
  {
    if n == 0 then []
    else InputsOf(policy, samples, noises, scale, candidateGoals, correction, n - 1)
         + [CriticInputsOf(samples[n - 1], SubgoalsOf(policy, samples[n - 1], noises[n - 1], scale, candidateGoals, correction))]
  }

  /** Iteration `k` trains on sample `k`, with its subgoals relabelled or kept. */
  lemma {:induction false} InputsAt(policy: Policy, samples: seq<Sample>, noises: seq<seq<seq<Vec>>>, scale: Vec,
                    candidateGoals: nat, correction: bool, n: nat, k: nat)
    requires k < n <= |samples| && RunShaped(policy, samples, noises, scale, candidateGoals, correction)
    ensures InputsOf(policy, samples, noises, scale, candidateGoals, correction, n)[k]
         == CriticInputsOf(samples[k], SubgoalsOf(policy, samples[k], noises[k], scale, candidateGoals, correction))
  {
    if k < n - 1 {
      InputsAt(policy, samples, noises, scale, candidateGoals, correction, n - 1, k);
    }
  }

  /** The Manager: its networks, the parameters of actor, critic and their targets, and the
      relabelling settings. Its target actor is built with the output scale, so it is a network of
      its own that starts from the online actor's parameters. Manager.train repeats
      Controller.train's update loop (`hiro/hiro.py:160-199` against `hiro/hiro.py:294-330`), so
      `Valid`, `Params`, `Iterate` and `Advance` repeat the Controller's members of those names. */
  class Manager {
    const nets: Nets
    var actor: seq<real>
    var critic: seq<real>
    const actorTarget: array<real>
    const criticTarget: array<real>
    const scale: Vec
    const candidateGoals: nat
    const correction: bool

    ghost predicate Valid()
      reads this
    {
      actorTarget != criticTarget && actorTarget.Length == |actor| && criticTarget.Length == |critic|
    }

    function Params(): (p: Snapshot)
      reads this, actorTarget, criticTarget
      ensures Valid() ==> Shaped(p)
    {
      Snapshot(actor, actorTarget[..], critic, criticTarget[..])
    }

    /** The target networks start as exact copies of the online ones (`load_state_dict`). */
    constructor (actorNet: ActorNet, actorTargetNet: ActorNet, criticNet: CriticNet,
                 actorInit: seq<real>, criticInit: seq<real>,
                 candidateGoals: nat, correction: bool, scale: Vec)
      ensures Valid() && fresh(actorTarget) && fresh(criticTarget)
      ensures nets == Nets(actorNet, actorTargetNet, criticNet)
      ensures Params() == Snapshot(actorInit, actorInit, criticInit, criticInit)
      ensures this.candidateGoals == candidateGoals && this.correction == correction && this.scale == scale
    {
      nets := Nets(actorNet, actorTargetNet, criticNet);
      actor, critic := actorInit, criticInit;
      actorTarget := new real[|actorInit|](i requires 0 <= i < |actorInit| => actorInit[i]);
      criticTarget := new real[|criticInit|](i requires 0 <= i < |criticInit| => criticInit[i]);
      this.candidateGoals, this.correction, this.scale := candidateGoals, correction, scale;
      new;
      assert actorTarget[..] == actorInit;
      assert criticTarget[..] == criticInit;
    }

    /** The loop of off_policy_corrections that fills `policy_actions`: for every candidate
        column `c`, the controller's proposals along the truncated trajectories under that column. */
    method SimulateCandidates(policy: Policy, subgoals: seq<Vec>, xSeq: seq<seq<Vec>>,
                              aSeq: seq<seq<Vec>>, noise: seq<seq<Vec>>)
      returns (acts: seq<seq<seq<Vec>>>)
      requires BatchShaped(subgoals, xSeq, aSeq, noise, scale, candidateGoals)
      ensures acts == Simulated(policy, subgoals, xSeq, aSeq, noise, scale, candidateGoals)
    {
      var ncands := candidateGoals + 2;
      var candidates := CandidateArray(subgoals, xSeq, aSeq, noise, scale, candidateGoals);
      var xs := Truncated(xSeq);
      var policyActions := new seq<seq<Vec>>[ncands];
      ColumnsReady(subgoals, xSeq, aSeq, noise, scale, candidateGoals);
      for c := 0 to ncands
        invariant forall j :: 0 <= j < c ==> policyActions[j] == Proposals(policy, xs, Column(candidates, j))
      {
        policyActions[c] := Proposals(policy, xs, Column(candidates, c));
      }
      acts := policyActions[..];
    }

    /** off_policy_corrections: build every element's candidates, simulate the controller once per
        candidate column over the whole batch, and keep each element's best-scoring candidate. */
    method OffPolicyCorrections(policy: Policy, subgoals: seq<Vec>, xSeq: seq<seq<Vec>>,
                                aSeq: seq<seq<Vec>>, noise: seq<seq<Vec>>)
      returns (relabelled: seq<Vec>)
      requires BatchShaped(subgoals, xSeq, aSeq, noise, scale, candidateGoals) && Emits(policy, ActionDim(aSeq))
      ensures relabelled == Relabel(policy, subgoals, xSeq, aSeq, noise, scale, candidateGoals)
    {
      var candidates := CandidateArray(subgoals, xSeq, aSeq, noise, scale, candidateGoals);
      var acts := SimulateCandidates(policy, subgoals, xSeq, aSeq, noise);
      SimulatedFits(policy, subgoals, xSeq, aSeq, noise, scale, candidateGoals);
      relabelled := PickBest(candidates, acts, aSeq);
    }

    /** One iteration of Manager.train once its batch is drawn and relabelled: TD targets from
        the target networks, critic loss, critic step, actor loss under the new critic, actor
        step, then both soft updates. */
    method Iterate(batch: CriticInputs, step: Optimised, discount: real, tau: real)
      returns (actorLoss: real, criticLoss: real)
      requires Valid() && WellFormed(batch) && Fits(Params(), step)
      modifies this, actorTarget, criticTarget
      ensures Valid()
      ensures Params() == Step(old(Params()), step, tau)
      ensures criticLoss == CriticLoss(nets, old(critic), batch, TDTargets(nets, old(Params()), batch, discount))
      ensures actorLoss == ActorLoss(nets, old(actor), step.critic, batch)
    {
      var ys := TDTargets(nets, Params(), batch, discount);
      criticLoss := CriticLoss(nets, critic, batch, ys);
      critic := step.critic;
      actorLoss := ActorLoss(nets, actor, critic, batch);
      actor := step.actor;
      SoftUpdate(criticTarget, critic, tau);
      SoftUpdate(actorTarget, actor, tau);
    }

    /** The subgoals one iteration trains on: off_policy_corrections when `correction` is on,
        the stored subgoals otherwise. */
    method SubgoalsFor(policy: Policy, sample: Sample, noise: seq<seq<Vec>>) returns (sg: seq<Vec>)
      requires SampleShaped(sample)
      requires correction ==> BatchShaped(sample.sgOrig, sample.xobsSeq, sample.aSeq, noise, scale, candidateGoals)
                              && Emits(policy, ActionDim(sample.aSeq))
      ensures sg == SubgoalsOf(policy, sample, noise, scale, candidateGoals, correction)
    {
      if correction {
        sg := OffPolicyCorrections(policy, sample.sgOrig, sample.xobsSeq, sample.aSeq, noise);
      } else {
        sg := sample.sgOrig;
      }
    }

    /** One pass of train's loop, stated against the fold: iteration `k` of a run that started
        from `start` leaves the parameters and loss sums of `k + 1` iterations. */
    method Advance(ghost start: Snapshot, ghost inputs: seq<CriticInputs>, batch: CriticInputs,
                   steps: seq<Optimised>, k: nat, discount: real, tau: real, sumActor: real, sumCritic: real)
      returns (newSumActor: real, newSumCritic: real)
      requires Valid() && Schedule(start, inputs, steps) && k < |steps| && batch == inputs[k]
      requires Params() == ParamsAt(start, steps, tau, k)
      requires sumActor == ActorLossSum(nets, start, inputs, steps, tau, k)
      requires sumCritic == CriticLossSum(nets, start, inputs, steps, discount, tau, k)
      modifies this, actorTarget, criticTarget
      ensures Valid() && Params() == ParamsAt(start, steps, tau, k + 1)
      ensures newSumActor == ActorLossSum(nets, start, inputs, steps, tau, k + 1)
      ensures newSumCritic == CriticLossSum(nets, start, inputs, steps, discount, tau, k + 1)
    {
      IterationStep(nets, start, inputs, steps, discount, tau, k);
      var actorLoss, criticLoss := Iterate(batch, steps[k], discount, tau);
      newSumActor, newSumCritic := sumActor + actorLoss, sumCritic + criticLoss;
    }

    /** What iteration `k` of train trains on: sample `k` with its subgoals relabelled or kept. */
    method BatchAt(policy: Policy, samples: seq<Sample>, noises: seq<seq<seq<Vec>>>, k: nat) returns (batch: CriticInputs)
      requires k < |samples| && RunShaped(policy, samples, noises, scale, candidateGoals, correction)
      ensures batch == InputsOf(policy, samples, noises, scale, candidateGoals, correction, |samples|)[k]
    {
      var sg := SubgoalsFor(policy, samples[k], noises[k]);
      batch := CriticInputsOf(samples[k], sg);
      InputsAt(policy, samples, noises, scale, candidateGoals, correction, |samples|, k);
    }

    /** Manager.train: one iteration per sample, relabelling its subgoals first when `correction`
        is on. `policy` is the controller's `select_action`, `noises[k]` the Gaussian draws of
        iteration `k` and `steps[k]` the online parameters its optimiser leaves. Returns the mean
        actor and critic losses. */
    method Train(policy: Policy, samples: seq<Sample>, noises: seq<seq<seq<Vec>>>, steps: seq<Optimised>,
                 discount: real, tau: real)
      returns (avgActorLoss: real, avgCriticLoss: real)
      requires Valid()
      requires |samples| > 0 && |steps| == |samples| && RunShaped(policy, samples, noises, scale, candidateGoals, correction)
      requires forall k :: 0 <= k < |steps| ==> |steps[k].actor| == |actor| && |steps[k].critic| == |critic|
      modifies this, actorTarget, criticTarget
      ensures Valid()
      ensures Schedule(old(Params()), InputsOf(policy, samples, noises, scale, candidateGoals, correction, |samples|), steps)
      ensures Params() == ParamsAt(old(Params()), steps, tau, |steps|)
      ensures avgActorLoss
           == ActorLossSum(nets, old(Params()), InputsOf(policy, samples, noises, scale, candidateGoals, correction, |samples|),
                           steps, tau, |steps|) / |steps| as real
      ensures avgCriticLoss
           == CriticLossSum(nets, old(Params()), InputsOf(policy, samples, noises, scale, candidateGoals, correction, |samples|),
                            steps, discount, tau, |steps|) / |steps| as real
    {
      ghost var start := Params();
      ghost var inputs := InputsOf(policy, samples, noises, scale, candidateGoals, correction, |samples|);
      assert Schedule(start, inputs, steps);
      var sumActor, sumCritic := 0.0, 0.0;
      for it := 0 to |samples|
        invariant Valid()
        invariant Params() == ParamsAt(start, steps, tau, it)
        invariant sumActor == ActorLossSum(nets, start, inputs, steps, tau, it)
        invariant sumCritic == CriticLossSum(nets, start, inputs, steps, discount, tau, it)
      {
        var batch := BatchAt(policy, samples, noises, it);
        sumActor, sumCritic := Advance(start, inputs, batch, steps, it, discount, tau, sumActor, sumCritic);
      }
      avgActorLoss, avgCriticLoss := sumActor / |samples| as real, sumCritic / |samples| as real;
    }
  }
}
