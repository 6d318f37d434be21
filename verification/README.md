# Herds: a verified model of the relational motion core

Herds makes a group of agents ("herd members") trail one animated leader. Each
agent copies the leader's motion curve, shifts it in time by its own phase, and
adds a fixed random offset on each axis. A *leader focus* damps those offsets. A
face-forward rig turns each agent so that its nose points along its direction of
travel, away from where it has just been. The herd is
registered on the leader's `leaderMessage` list. It can be deleted and rebuilt
from the current panel values.

This project restates that core as pure Dafny functions over `real`. It proves
the properties the code relies on or promises:

- `motion.dfy`, module `Motion`: the per-agent motion rule. It covers the
  phase variable `herdvar`, the focus-damped stray radius, the lagged sample
  time and the per-axis offsets. The four random draws of an agent are given
  values in [0, 1). The leader's trajectory is a total function
  `real -> Vec3`.
- `orientation.dfy`, module `Orientation`: the face-forward history update.
  It covers one step, runs of many steps, and the seeding of the history.
- `topology.dfy`, module `Topology`: the scene. It holds the leader with its
  live controls, the stored template shape and the registry slots, plus the
  agent nodes keyed by node identity. It covers build, register, delete,
  rebuild, the registry query, idempotent leader creation and herd creation.
  A scene is *well formed* when every agent node, and every agent a slot is
  connected to, has an identity below the scene's identity counter; every
  operation keeps that.
- `panel.dfy`, module `Panel`: the parameter values with their slider ranges
  and defaults.
- `results.dfy` and `vectors.dfy`: `Option`, `Result` and 3-vectors.

## Behaviour worth knowing

These points follow from the code as written. The model follows the code on
each of them.

- Axis offsets are `(r - 0.45) * randfac`. They lie in
  `[-0.45 * randfac, 0.55 * randfac)`, not in a symmetric `±randfac/2` band.
- The damping factor `|herdvar| * (1 - focus) / (focus * pop)` grows with
  `|herdvar|`. Agents near phase 0 (the first few indices) are damped most.
  Agents further back keep more of the stray.
- `pop` is the herd size baked into the expression when the agent is built. It
  is not the leader's `pop` attribute, which nothing ever sets. A herd size of
  zero creates no agent, so the division by `focus * pop` is never reached. The
  model makes that division undefined (`None`) and proves no built agent
  reaches it.
- With face-forward off, the locator is placed on the agent's current
  position. It is not frozen at an older one.
- Nothing validates the panel values. Their ranges come only from the sliders,
  and the model states them as `Panel.InRange`.
- Every build and rebuild draws fresh jitter. The model takes the draws as a
  parameter (`draws: nat -> Jitter`, one set of four per agent index).

## Model

| member | source | states |
|---|---|---|
| Motion.HerdVar | herds.py:322 | With zero randomness the phase is exactly the agent's index. Otherwise it stays within randomness/2 of the index. |
| Motion.PhaseFollowsIndex | herds.py:322 | With randomness at most 1, agent phases are strictly increasing in index, so the jitter never reorders the herd. |
| Motion.StrayRadius | herds.py:323-326 | A zero focus leaves the radius at exactly the stray. The radius is undefined exactly when focus is non-zero and the baked herd size is zero. In range it lies in [0, stray], and a focus of 1 gives 0. |
| Motion.FullStrayIffClamped | herds.py:325-326 | For a positive stray, a positive focus keeps the full stray exactly when the unclamped factor reaches 1. That is the same radius a zero focus gives. |
| Motion.StrayGrowsWithPhase | herds.py:326 | For a fixed focus and herd size, a larger \|herdvar\| never gives a smaller radius. |
| Motion.StrayShrinksWithFocus | herds.py:326 | A stronger focus never gives a larger radius. |
| Motion.SampleTime | herds.py:327 | With a zero frame offset the sample time is frame + frameAdjust. In general it falls herdvar * frameOffset before that. |
| Motion.NoFrameOffsetSharedSample | herds.py:327 | With a zero frame offset, all agents with the same frameAdjust sample the leader at the same time, whatever their index or phase. |
| Motion.LaterAgentsTrail | herds.py:322-327 | With a positive frame offset and randomness at most 1, a higher-index agent with the same frameAdjust samples the leader strictly earlier. |
| Motion.AxisOffset | herds.py:328-333 | For a draw in [0,1) and a non-negative radius, the offset lies in [-0.45 r, 0.55 r], strictly below 0.55 r when r > 0. |
| Motion.Position | herds.py:322-333 | The position is undefined exactly when the damping divides by zero. Otherwise each axis differs from the leader's position at the sample time by an offset within the radius, and the radius is at most the stray. |
| Motion.ConstantLeaderOffset | herds.py:328-333 | For a leader that never moves, the agent's position is the leader's position plus its fixed offset vector. |
| Orientation.Step | herds.py:406-424 | With face-forward on, the target is the previous history value; with it off, the target is the current position. Either way the history becomes the current position. |
| Orientation.Run | herds.py:406-424 | A run produces one target per evaluation. Its final history is the last evaluated position, or the initial history if nothing was evaluated. |
| Orientation.RunLagsOneStep | herds.py:406-424 | In any run, each target is the position one evaluation earlier when face-forward is on, and the current position when it is off. The first frame uses the seeded history. |
| Orientation.PinnedWhenOff | herds.py:406-418 | With face-forward off throughout, every target is the agent's own position. |
| Orientation.InitialHistoryAsWritten | herds.py:389-391 | The seeded history, as written, copies the x position into all three components. |
| Orientation.AsWrittenFirstTargetDrifts | herds.py:389-391 | For an agent created at (0,1,2), the as-written seed makes the first face-forward target (0,0,0), not the creation position. |
| Orientation.InitialHistory | herds.py:389-391 | The corrected seed is the creation position, component by component. It coincides with the as-written seed exactly when the creation position has equal x, y and z. |
| Orientation.FaceForwardTrailsCreation | herds.py:389-424 | With the corrected seed and face-forward on, the first target is the creation position and each later one is the previous position. |
| Topology.Registered | herds.py:279 | The registry lists exactly the agents connected to some slot, never more entries than there are slots. |
| Topology.GetPopulation | herds.py:277-280 | The query answers nothing exactly when there is no leader or no slot is connected. Otherwise it lists exactly the connected agents. |
| Topology.CreateLeader | herds.py:452-454 | An existing leader is returned unchanged and the panel is not read. A missing leader is created with the panel's controls and an empty registry. |
| Topology.CreateLeaderIdempotent | herds.py:452-454 | Creating the leader twice is the same as creating it once, whatever panel values the second call sees. |
| Topology.ControlsOf | herds.py:498-501 | The panel's stray, focus and randomness go to the leader's attributes of the same name, and the panel's offset goes to the leader's frame offset. |
| Topology.ControlsIgnorePopulation | herds.py:496-501 | Two panels write the same controls exactly when they differ at most in herd size, which the leader never receives. |
| Topology.EditMotion | herds.py:494-501 | Fails exactly when there is no leader. Otherwise the leader's controls become the panel values, and its shape, registry, the agent nodes and the identity counter stay as they were. |
| Topology.RecordShape | herds.py:486-487 | The template is stored on the leader and nothing else changes. |
| Topology.NewAgent | herds.py:312-391 | A new agent keeps its index, the herd size, its template and its draws. It starts with frameAdjust 0 and face-forward on, and its history holds its creation position. |
| Topology.NewAgentTrailsCreation | herds.py:386-424 | With the corrected seed and face-forward on, a new agent's first target is where it was created, and each later target is where it stood one evaluation earlier. |
| Topology.Place | herds.py:346 | Connecting to slot i fills slot i and no other. Slots past the old end, other than i, are left unconnected, and the registry grows only to cover i. |
| Topology.Register | herds.py:343-346 | Connecting to an already-connected slot is refused with that index. Otherwise the agent fills the slot and no other slot, control or node changes. |
| Topology.BuildFrom | herds.py:288-296 | The build succeeds exactly when the slots it needs are free. A failure names the first occupied slot in its range, and the agents created up to and including that slot's agent have consecutive fresh identities. On success it creates one agent per index, under consecutive fresh identities, in index order. |
| Topology.BuildFromSlots | herds.py:288-296 | A successful build connects agent k to slot k for k below the herd size and leaves every other slot as it was. |
| Topology.BuildFromAgents | herds.py:288-296 | A successful build adds exactly one node per agent, under consecutive fresh identities, and keeps every existing node. |
| Topology.Build | herds.py:282-296 | Without a leader nothing changes. A herd size of 0 then succeeds with no agents, because the loop never runs, and any other size reports a missing leader. Otherwise it succeeds exactly when slots 0 to n-1 are free, and creates n agents in order. A refused build names the first occupied slot and has created the agents for indices 0 up to that slot, in order. |
| Topology.BuildFromFailedSlots | herds.py:288-296 | A build from index i refused at slot idx has connected slots i to idx-1 to the agents it created for them, in order. |
| Topology.BuildFromFailedNode | herds.py:288-294 | A refused build leaves the node it created for the refused index in the scene, made for that index. |
| Topology.BuildFromFailedNodeUnslotted | herds.py:288-296 | If every connected slot held an identity handed out before the build, the node created for the refused index is connected to no slot. |
| Topology.BuildFailureLeavesPartialHerd | herds.py:288-296 | On a well-formed scene, a refused build at slot idx has created agents 0 to idx under consecutive fresh identities. Slots 0 to idx-1 hold the first idx of them, in order. The last one stays in the scene as a node for agent idx, connected to no slot. |
| Topology.BuildRegistersInOrder | herds.py:288-296 | On an empty registry, a build of n registers exactly n new agents at indices 0 to n-1 in order. For n = 0 nothing is registered and the query answers nothing. |
| Topology.BuildCreatesAgents | herds.py:288-294 | The k-th agent created is agent k, with herd size n, the template, its own draws, no frame adjustment and face-forward on. |
| Topology.BuildKeepsNodes | herds.py:288-296 | The build keeps every earlier node unchanged and adds only the new agents, all under fresh identities. |
| Topology.EvaluateAgent | herds.py:320-333 | An agent evaluates only if it and the leader exist. It always evaluates when its baked herd size is positive. |
| Topology.BuiltAgentsEvaluate | herds.py:288-290 | Every agent a build registers evaluates to a position, so the damping never divides by zero. |
| Topology.AgentsStayWithinStray | herds.py:54-80 | With panel values in their slider ranges and draws in [0,1), every agent stays within a radius of at most 100 of the leader's sampled position. |
| Topology.Remove | herds.py:273-275 | Deleting nodes removes exactly those nodes and frees exactly the slots they held. |
| Topology.DeleteAsWritten | herds.py:270-275 | The as-written delete fails exactly when there is no leader or no connected agent, because it iterates the `None` the registry query answers. |
| Topology.Delete | herds.py:270-275 | The corrected delete frees every slot and removes exactly the registered agents. It keeps every other node, the controls and the shape. |
| Topology.DeleteAsWrittenAgrees | herds.py:270-275 | Wherever the as-written delete succeeds, it equals the corrected delete. |
| Topology.RebuildAsWritten | herds.py:298-302 | On a herd with no connected agent, or with no leader, the as-written rebuild fails and changes nothing. |
| Topology.Rebuild | herds.py:298-302 | Without a leader nothing changes. With one, the rebuild always succeeds. |
| Topology.RebuildReplacesHerd | herds.py:298-302 | After a rebuild, exactly the panel's current number of new agents are registered, in index order, from the stored shape. No previously registered agent survives as a node or in the registry. |
| Topology.RebuildAsWrittenFailsOnEmptyHerd | herds.py:271-279 | For a leader with no connected agent, the as-written rebuild fails. The corrected rebuild registers the default 10 agents. |
| Topology.RebuildAsWrittenAgrees | herds.py:298-302 | When the herd has connected agents, the as-written and corrected rebuilds give the same result. |
| Topology.HerdCreateAsWritten | herds.py:250-262 | On a scene that already has a leader, the as-written creation fails before building. |
| Topology.HerdCreate | herds.py:255-262 | The corrected creation always leaves a leader in the scene. |
| Topology.HerdCreateBuildsHerd | herds.py:255-262 | Without a leader, or with a leader whose registry is empty, creation stores the template and registers exactly the panel's number of agents, in order. |
| Topology.HerdCreateAsWrittenFailsOnExistingLeader | herds.py:452-454 | With an existing leader, the as-written creation fails and the corrected one builds the herd. |
| Topology.HerdCreateAsWrittenAgrees | herds.py:250-262 | On a scene without a leader, the as-written and corrected creations coincide. |
| Topology.RegisterPreservesWellFormed | herds.py:343-346 | Connecting an agent whose identity was already handed out keeps every node and every connected slot below the identity counter. |
| Topology.EditMotionPreservesWellFormed | herds.py:494-501 | Editing the motion keeps the scene well formed. |
| Topology.RecordShapePreservesWellFormed | herds.py:486-487 | Recording the shape keeps the scene well formed. |
| Topology.BuildFromPreservesWellFormed | herds.py:288-296 | Every build keeps the scene well formed, a refused one included. |
| Topology.BuildPreservesWellFormed | herds.py:282-296 | Every build from the panel keeps the scene well formed, with or without a leader. |
| Topology.DeletePreservesWellFormed | herds.py:270-275 | The corrected delete keeps the scene well formed. |
| Topology.HerdCreatePreservesWellFormed | herds.py:255-262 | Creating a herd keeps the scene well formed, whatever its outcome. |
| Topology.RebuildPreservesWellFormed | herds.py:298-302 | A rebuild keeps the scene well formed, so a scene left by any earlier build, refused or not, can be rebuilt with the guarantees of `RebuildReplacesHerd`. |

## Findings

| source | as written | input that shows it | evidently intended | confidence | as-written member | corrected member |
|---|---|---|---|---|---|---|
| herds.py:389-391 | `lastX`, `lastY` and `lastZ` all default to `pos[0]` | an agent created at (0, 1, 2) with face-forward on: the first target is (0, 0, 0) | `lastY` from `pos[1]` and `lastZ` from `pos[2]` | medium, not executed | Orientation.AsWrittenFirstTargetDrifts | Orientation.FaceForwardTrailsCreation |
| herds.py:271-279 | `delete` iterates `getPopulation()`; the registry query answers `None` when no agent is connected | rebuild a herd built with 0 members (or press rebuild before any build) | an empty registry deletes nothing and the rebuild proceeds | medium, not executed | Topology.RebuildAsWrittenFailsOnEmptyHerd | Topology.RebuildReplacesHerd |
| herds.py:452-454 | `leader.create` returns early without setting the `leader` handle that `recordShape` (herds.py:487) uses | create a herd when a leader node already exists | record the shape on the existing leader; the corrected member covers a leader whose registry is empty | medium, not executed | Topology.HerdCreateAsWrittenFailsOnExistingLeader | Topology.HerdCreateBuildsHerd |

The corrected members are the ones the rest of the model uses: `NewAgent` seeds
the history with `Orientation.InitialHistory`, and `Rebuild` uses `Delete`.

## Left out

- The parameter window, its sliders, dialogs and callbacks (herds.py:47-246) are host UI. Only the slider ranges and defaults are kept, in `Panel`.
- Host scene calls are foreign operations and are not modelled: creating the cone or duplicating the template, adding attributes, connecting and deleting nodes, writing the expression text, `cycleCheck`, and the leader's curve and button manipulator. The model keeps only their effect on the registry and on the set of agent nodes.
- The aim constraint, the look-at math, the hidden locator node and the pivot subtraction (herds.py:364-384) are host constraint solving. The position the history is seeded from is a parameter (`origins`).
- Particle dynamics (`agent.dynamic`, `leader.followParticle`, `deleteParticle`) are host simulation.
- `pointall` calls `herd.getPopulation` unbound and passes an extra argument to `point`, so it cannot run. It is not modelled.
- `leader.select` is host selection and is not modelled.
- Python's `random` is replaced by given draws in [0, 1). The draws are written into the expression with `str`, and that decimal rounding is not modelled. IEEE floating point is replaced by exact reals.
- How `getAttr -time` interpolates or extrapolates the leader's curve is left abstract in the leader function `real -> Vec3`.
- MEL's behaviour on a float division by zero is not modelled; the damping is undefined there (`None`), and no built agent reaches it.
- Topology.Build: with no leader and a positive herd size, the model changes nothing and reports a missing leader. The source may already have created the first agent node before the expression fails. That partial host state is not modelled.
- A failed registration is modelled as ending the build with the agent's node created but unregistered. What the host leaves of that node's expressions is not modelled.
- When the template is a selection list, it is stored as the text of that list and re-read as that text on rebuild. Whether the host can duplicate an object by that text is a host question, so the template stays an opaque string.
- Topology.NewAgent: the agents that `Build`, `Rebuild` and `HerdCreate` create are seeded with the corrected history (the creation position), not the as-written `(x, x, x)`. The as-written seed and the drift it causes are modelled only in `Orientation` (`InitialHistoryAsWritten`, `AsWrittenFirstTargetDrifts`). So the agent records stated by `BuildCreatesAgents`, `RebuildReplacesHerd` and `HerdCreateBuildsHerd` hold the corrected history in `last`. The seed affects only an agent's first face-forward target, and none of the registry properties of `Topology`.
- Topology.NewAgentTrailsCreation: holds for the corrected seed only. As written, the first face-forward target of a new agent is `(x, x, x)` of its creation position (`Orientation.AsWrittenFirstTargetDrifts`), and later targets lag by one evaluation as stated.
- Topology.HerdCreate: the corrected creation records the template on an existing leader, but it still builds into slots 0 to n-1. On a leader that already has agents connected, for example after creating a herd twice, it fails with `AlreadyConnected(0)` as the source would at the same point. Only an existing leader with an empty registry is repaired.
- The registry query is taken to list the connected agents in slot order, which is the order the host reports a multi-attribute's connections in.
- A leader's shape attribute that was never written is represented by the empty string. What the host does when asked to duplicate it is not modelled.
- The `agents` list that `herd.create` returns is not refreshed by `rebuild`. It is a return value only and is not modelled.
