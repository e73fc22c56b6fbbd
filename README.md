# HIRO training core in Dafny

This project models the training core of a HIRO agent, which is hierarchical reinforcement
learning with off-policy correction. It covers `hiro/hiro.py`. The agent has two policies:

- the **Manager** proposes a subgoal every few steps;
- the **Controller** acts to reach the current subgoal.

The model covers three parts of `hiro/hiro.py`.

- **Subgoal transitions** (module `Controller`).
  - `hiro_subgoal_transition` re-anchors a relative subgoal when the state moves.
  - `multi_subgoal_transition` does this for every step of a batch of stored trajectories.
- **Off-policy correction** (module `Manager`).
  - For every batch element, `off_policy_corrections` builds the candidate subgoals: the stored
    subgoal, the displacement the trajectory achieved, and clipped Gaussian draws around that
    displacement.
  - It simulates the current Controller along the stored trajectory under every candidate.
  - It scores each candidate by `-0.5 * sum_t ||simulated action - logged action||^2`.
  - It keeps the first best-scoring candidate.
  - The method fills `policy_actions` column by column in a loop, as the source does. It is
    proved equal to the specification function `Relabel`. Lemmas then show, for every element:
    - the kept subgoal is one of its candidates;
    - it scores at least as well as every candidate;
    - ties go to the stored subgoal;
    - a subgoal that already reproduces the logged actions is kept;
    - the result is within `[-scale, scale]` when the two unclipped candidates are.
- **Training loops** (module `ActorCritic`, plus classes `Controller.Controller` and
  `Manager.Manager`). One `train` call runs these steps per iteration:
  - the twin-critic TD target `r + (1 - d) * discount * min(Q1', Q2')`;
  - the critic loss (two mean-squared errors) and the actor loss;
  - the optimiser steps;
  - the in-place Polyak update of the target parameters.

  It returns the averaged losses. Online parameters are fields that the methods reassign. Target
  parameters are arrays that `SoftUpdate` overwrites in place. `Train` is proved to leave exactly
  the parameters given by the fold `ParamsAt`, and to return the loss sums divided by the number
  of iterations. Lemmas show that the targets are the exponential moving average of the online
  parameters, and that they stay within any interval that holds the starting target and every
  online value it moved towards.

The actor and critic networks are function values evaluated at a parameter vector. What the
optimiser leaves after each step is an input (`Optimised`), one per iteration. The Gaussian draws
are an input array of standard-normal variates, and a draw is `mean + 0.5 * scale * z`. A
Controller policy, as the Manager sees it, is a function from (state, subgoal) to an action.

Only the random candidates are clipped (`hiro/hiro.py:106`). The stored subgoal and the
displacement are joined to them unclipped (`hiro/hiro.py:109`), so either can be returned outside
`[-scale, scale]` (`ExactSubgoalIsKept`). `ChosenInBounds` therefore needs those two candidates to
be in bounds.

## Model

| member | source | states |
|---|---|---|
| Controller.HiroSubgoalTransition | hiro/hiro.py:273-274 | the re-anchored subgoal has the state's dimension and keeps the absolute target: `next_state + result == state + subgoal` |
| Controller.TransitionStandingStill | hiro/hiro.py:273-274 | a transition to the same state leaves the subgoal unchanged |
| Controller.TransitionComposes | hiro/hiro.py:273-274 | two consecutive transitions equal one transition straight from the first state to the last |
| Controller.TransitionInverse | hiro/hiro.py:273-274 | moving back to the starting state restores the original subgoal |
| Controller.MultiSubgoalTransition | hiro/hiro.py:276-278 | for every trajectory of the batch, the subgoal at step 0 is the issued one, every later step is one `hiro_subgoal_transition` from the step before, and every step aims at `states[b][0] + subgoal[b]` |
| Controller.MultiIsChained | hiro/hiro.py:273-278 | telescoping: the batched rule equals `hiro_subgoal_transition` applied step after step (`ChainedTransitions`) |
| Controller.DisplacementIsReached | hiro/hiro.py:276-278 | when the issued subgoal is the trajectory's own displacement, the subgoal left at the last state is zero |
| Controller.CriticInputsOf | hiro/hiro.py:291-300 | the target networks are evaluated at the next state with the subgoal carried over by `hiro_subgoal_transition`, element by element |
| Controller.Controller.constructor | hiro/hiro.py:225-233 | the target actor and critic start as exact copies of the online parameters |
| Controller.Controller.Iterate | hiro/hiro.py:291-330 | one iteration: critic loss against TD targets from the old target networks, actor loss under the stepped critic, online parameters set by the optimiser, each target moved one Polyak step |
| Controller.Controller.Advance | hiro/hiro.py:291-330 | one pass of the loop leaves the parameters and loss sums of one more iteration of the `ParamsAt` fold |
| Controller.Controller.Train | hiro/hiro.py:280-332 | the final parameters are the `ParamsAt` fold of the iterations; the returned losses are the actor and critic loss sums divided by `iterations` |
| ActorCritic.TDTarget | hiro/hiro.py:160-166 | a terminal transition is worth its reward alone; the target bootstraps from one of the two heads, the smaller one when the bootstrap weight is non-negative |
| ActorCritic.TDTargets | hiro/hiro.py:163-166 | one TD target per batch element, and a terminal element is worth its reward alone (the same expression is at `hiro/hiro.py:297-300`) |
| ActorCritic.MeanSquaredError | hiro/hiro.py:58 | `nn.MSELoss` is never negative |
| ActorCritic.MeanSquaredErrorZero | hiro/hiro.py:58 | the mean-squared error is zero exactly when prediction and target agree everywhere |
| ActorCritic.CriticLoss | hiro/hiro.py:168-173 | the critic loss (sum of both heads' errors) is never negative |
| ActorCritic.CriticLossZero | hiro/hiro.py:168-173 | the critic loss is zero exactly when both heads already predict every TD target |
| ActorCritic.ActorLoss | hiro/hiro.py:87-91 | the actor loss lies between minus the largest and minus the smallest first-head value the critic gives the actor's own actions, so a lower loss means higher values (the Controller's `actor_loss` at `hiro/hiro.py:267-271` is the same) |
| ActorCritic.PolyakBetween | hiro/hiro.py:193-199 | for `tau` in [0, 1] each new target parameter lies between the online and the old target value |
| ActorCritic.Polyak | hiro/hiro.py:195 | one new target value per parameter; `SoftUpdate` and `SoftUpdatesTowardsFixed` (one step) state the value `tau * p + (1 - tau) * t`, and `PolyakBetween`, `PolyakFull` and `PolyakFixedPoint` bound it (the same update is at lines 199, 327 and 330) |
| ActorCritic.PolyakFull | hiro/hiro.py:193-199 | with `tau = 1` the target becomes the online parameters |
| ActorCritic.PolyakFixedPoint | hiro/hiro.py:193-199 | a target equal to the online parameters stays equal for every `tau` |
| ActorCritic.SoftUpdate | hiro/hiro.py:193-199 | the in-place loop leaves the target array equal to `tau * online + (1 - tau) * old target` |
| ActorCritic.Step | hiro/hiro.py:176-199 | one iteration keeps every target the size of its online network |
| ActorCritic.CriticLossAt | hiro/hiro.py:160-173 | the critic loss of each iteration is never negative |
| ActorCritic.CriticLossSumNonNegative | hiro/hiro.py:189-201 | the accumulated critic loss, and so its average, is never negative |
| ActorCritic.IterationStep | hiro/hiro.py:146-199 | the parameters after `n + 1` iterations are one `Step` from those after `n`, and each loss sum grows by exactly iteration `n`'s loss |
| ActorCritic.ParamsAtTargets | hiro/hiro.py:146-199 | after `n` iterations each target is the Polyak fold of its online network's successive parameters, and the online parameters are those the last optimiser step left |
| ActorCritic.SoftUpdatesStayBetween | hiro/hiro.py:193-199 | for `tau` in [0, 1] a target parameter never leaves an interval that holds its start value and every online value it moved towards |
| ActorCritic.SoftUpdatesFull | hiro/hiro.py:193-199 | with `tau = 1` the targets equal the last online parameters |
| ActorCritic.EmaClosedForm | hiro/hiro.py:193-199 | a parameter moved `n` times towards a fixed value `p` from `start` equals `p + (1 - tau)^n * (start - p)` |
| ActorCritic.SoftUpdatesAreEma | hiro/hiro.py:193-199 | while the online parameters stay fixed, every target parameter follows the scalar moving average `Ema` |
| ActorCritic.SoftUpdatesTowardsFixed | hiro/hiro.py:193-199 | exponential moving average: after `n` steps towards fixed online parameters the gap has shrunk by `(1 - tau)^n` |
| ActorCritic.SoftUpdatesKeepCopy | hiro/hiro.py:43-49 | targets initialised as copies stay copies while the online parameters do not move |
| Manager.Clip | hiro/hiro.py:106 | numpy `clip`: with a non-negative scale the result is in `[-scale, scale]`; components inside are kept; components outside move to the nearer bound |
| Manager.Perturbed | hiro/hiro.py:104-105 | a draw with a zero variate is the mean, the displacement |
| Manager.Displacement | hiro/hiro.py:99-102 | `first_x + diff_goal == last_x` |
| Manager.Candidates | hiro/hiro.py:99-109 | exactly `2 + candidate_goals` candidates: index 0 the stored subgoal, index 1 the displacement, index `2 + k` the clipped draw `k`; the random ones lie in `[-scale, scale]` |
| Manager.CandidateArray | hiro/hiro.py:109 | row `b` of `candidates` is batch element `b`'s own candidate list: stored subgoal, displacement, then the clipped draws |
| Manager.Init | hiro/hiro.py:110 | the last state of each trajectory is dropped and the others are kept in order |
| Manager.Truncated | hiro/hiro.py:110 | every trajectory of the batch loses its last state and keeps the others in order |
| Manager.ProposalsAlong | hiro/hiro.py:129-132 | the simulated action at step `t` is the policy at state `t` with subgoal `subgoal + x_0 - x_t`; `ProposalsAt` shows that the batched simulation gives exactly these |
| Manager.TotalSqDistanceZero | hiro/hiro.py:134-138 | the summed squared distance is non-negative and zero exactly on equal action sequences |
| Manager.ScoreAtMostZero | hiro/hiro.py:138 | a candidate's log-probability score is at most zero, and zero exactly when every simulated action is the logged one |
| Manager.Score | hiro/hiro.py:138 | a candidate's log-probability score is never positive |
| Manager.FirstArgmax | hiro/hiro.py:139 | `np.argmax`: an index of a largest entry, and no earlier entry is as large |
| Manager.FirstArgmaxOfLeading | hiro/hiro.py:139 | when no entry beats the first, `np.argmax` returns 0 |
| Manager.Choose | hiro/hiro.py:134-141 | the subgoal kept for one element has the subgoal dimension |
| Manager.ChosenIsCandidate | hiro/hiro.py:98-141 | the kept subgoal is the stored subgoal, the displacement, or one of the clipped draws |
| Manager.ChosenIsBest | hiro/hiro.py:134-141 | the kept subgoal scores at least as well as every candidate, the stored subgoal included |
| Manager.TieKeepsSubgoal | hiro/hiro.py:139-141 | if no candidate scores better than the stored subgoal, the stored subgoal is kept |
| Manager.ExactSubgoalIsKept | hiro/hiro.py:127-141 | a stored subgoal under which the controller reproduces every logged action is kept, whether or not it is in bounds |
| Manager.CandidatesInBounds | hiro/hiro.py:102-109 | every candidate is in `[-scale, scale]` when the stored subgoal and the displacement are |
| Manager.ChosenInBounds | hiro/hiro.py:102-141 | the kept subgoal is in `[-scale, scale]` when the two unclipped candidates are |
| Manager.ProposalsAt | hiro/hiro.py:129-132 | simulating the whole batch at once gives, element by element, the proposals along that element's own trajectory |
| Manager.Proposals | hiro/hiro.py:129-132 | one sequence of simulated actions per trajectory; `ProposalsAt` states their values |
| Manager.Simulated | hiro/hiro.py:127-132 | `policy_actions[c][b]` is batch element `b` simulated alone under its own candidate `c`; `SimulatedFits` shows they line up with the logged actions, and `RelabelIsChoose` what the argmax over them keeps |
| Manager.ColumnProposals | hiro/hiro.py:127-132 | simulating candidate column `c` over the whole batch gives, for every element, that element's own simulation under its candidate `c` |
| Manager.SimulatedFits | hiro/hiro.py:127-138 | every simulated action lines up in shape with the logged action it is compared with |
| Manager.Relabel | hiro/hiro.py:134-141 | one relabelled subgoal per batch element; which one is stated by `RelabelIsChoose` with `ChosenIsCandidate`, `ChosenIsBest` and `TieKeepsSubgoal` |
| Manager.PickBest | hiro/hiro.py:139-141 | one kept subgoal per batch element; `RelabelIsChoose` states that it is that element's first best candidate |
| Manager.RelabelIsChoose | hiro/hiro.py:93-141 | element `b` of the batched result is that element's own best candidate (`Choose`), so every per-element lemma applies to the batch |
| Manager.CriticInputsOf | hiro/hiro.py:154-170 | the Manager's critics see (state, goal, subgoal) now and the next state with the same goal |
| Manager.SubgoalsOf | hiro/hiro.py:149-152 | without correction the stored subgoals are used unchanged; with it, they are those `Relabel` returns |
| Manager.InputsAt | hiro/hiro.py:146-170 | iteration `k` trains on sample `k` with its subgoals relabelled or kept |
| Manager.Manager.constructor | hiro/hiro.py:39-61 | the target actor and critic start as exact copies of the online parameters; the settings are stored |
| Manager.Manager.SimulateCandidates | hiro/hiro.py:127-132 | the loop over candidate columns leaves `policy_actions` equal to `Simulated` |
| Manager.Manager.OffPolicyCorrections | hiro/hiro.py:93-141 | building the candidates, filling `policy_actions` and taking the argmax returns exactly `Relabel` |
| Manager.Manager.SubgoalsFor | hiro/hiro.py:149-152 | the subgoals of one iteration are the relabelled ones when `correction` is on, the stored ones otherwise |
| Manager.Manager.BatchAt | hiro/hiro.py:146-170 | iteration `k` trains on sample `k` with its subgoals relabelled or kept, which is entry `k` of `InputsOf` |
| Manager.Manager.Iterate | hiro/hiro.py:160-199 | one iteration: critic loss against TD targets from the old targets, actor loss under the stepped critic, optimiser results installed, each target moved one Polyak step |
| Manager.Manager.Advance | hiro/hiro.py:160-199 | one pass of the loop leaves the parameters and loss sums of one more iteration of the `ParamsAt` fold |
| Manager.Manager.Train | hiro/hiro.py:143-201 | the final parameters are the `ParamsAt` fold; the returned losses are the loss sums over the relabelled batches divided by `iterations` |

## Left out

- The network architectures (`hiro.models`) are not part of this model. Actor and critic are
  function values of their parameters. The Manager's target actor is built with `scale` and is a
  separate function value.
- Gradient computation and the Adam steps. The online parameters after each step are inputs to
  `Train`.
- `np.random.normal`: the standard-normal variates are an input, and only the shift, the scaling
  and the clipping are modelled.
- The replay buffer: `Train` receives the sampled batches. The `batch_size` argument is taken to
  be the number of subgoals in the batch.
- The filter of `-inf` differences (`hiro/hiro.py:135`). Real numbers have no infinities, so the
  filter never changes anything here.
- Floating point: all arithmetic is on mathematical reals, with no rounding or overflow.
- `squeeze()` in `select_action` and `sample_goal`, `unsqueeze(0)` in `get_tensor`, and the `.cuda()`
  moves. Apart from the case below, these are tensor-shape and device plumbing.
- One-dimensional actions. The model accepts an action dimension of 1, but `off_policy_corrections`
  raises on it whenever `batch_size * seq_len > 1`. With actions stored as rows of shape `(1,)`,
  the `squeeze()` in `select_action` (`hiro/hiro.py:256`) turns the controller's `(N, 1)` output
  into `(N,)`, and assigning that to `policy_actions[c]` raises a `ValueError` at
  `hiro/hiro.py:132`. With scalar actions, `.transpose(1, 0, 2, 3)` raises at `hiro/hiro.py:136`.
  So `Manager.train` with `correction` on raises for every one-dimensional action space, whereas
  `Relabel` returns a relabelled batch. Actions of dimension 1 are not excluded by a precondition,
  because the source does handle `N = 1`.
- `save`, `load` and `load_pretrained_weights` (checkpoint file I/O). `set_eval` and `set_train`
  (delegations to the networks).
- `RepresentationNet` (`hiro/hiro.py:347-436`). It is floating-point energy arithmetic and cannot
  run as written.
- An empty batch. `nn.MSELoss` and `.mean()` over zero elements give NaN rather than raising, and
  the reals have no NaN, so every batch is taken to be non-empty. With `correction` on, an empty
  batch makes `off_policy_corrections` raise an `IndexError` at `hiro/hiro.py:102`.
- A scalar `scale`. The model's `scale` is a numpy array with one entry per goal dimension. A
  scalar `scale`, the default `10` at `hiro/hiro.py:38` included, makes `.5*self.scale[None, None, :]`
  raise a `TypeError` at `hiro/hiro.py:104`. With the defaults (`correction=True`, `scale=10`),
  `Manager.train` therefore raises on its first iteration. A length-1 array broadcasts in numpy; the
  model covers that case by repeating the entry once per goal dimension.
- Shape errors raised by numpy or torch become preconditions. These are:
  - trajectories of at least two states and of one common length;
  - one logged action per simulated step;
  - a non-negative `scale` (negative scales make `np.random.normal` raise);
  - `iterations > 0` (otherwise the final division raises).
- ActorCritic.CriticLoss: states only non-negativity; the zero case is `CriticLossZero`.
- ActorCritic.Polyak: states only the length. The value is stated by `SoftUpdate` and by
  `SoftUpdatesTowardsFixed`; `PolyakBetween`, `PolyakFull` and `PolyakFixedPoint` bound it. A per-parameter ensures made the training
  proofs too costly.
- Manager.Proposals: states only the batch length; the values are stated by `ProposalsAt`.
- Manager.PickBest: states only the length; what is kept is stated by `RelabelIsChoose`.
- Manager.Choose: states only the result's dimension; what is chosen is stated by
  `ChosenIsCandidate`, `ChosenIsBest`, `TieKeepsSubgoal` and `ChosenInBounds`.
- Manager.Manager.Train and Controller.Controller.Train: do not restate that the average critic
  loss is non-negative; that follows from `CriticLossSumNonNegative`.
