/** The herd as a scene: one leader node carrying the live controls, the
    recorded template shape and the `leaderMessage` registry, plus the agent
    nodes. Building creates and registers agents in index order; rebuilding
    deletes every registered agent and builds again from the current panel. */
module Topology {
  import opened Results
  import opened Vectors
  import opened Motion
  import opened Panel
  import Orientation

  datatype HerdError =
    | MissingLeader              // a leader attribute is read or written but no leader exists
    | AlreadyConnected(index: nat) // `leaderMessage[index]` already has an incoming connection
    | NotIterable                // the registry query returned `None` and was iterated
    | NoLeaderHandle             // the shape is recorded through a leader handle that was never set

  /** An agent node: its index in the herd, the herd size baked into its
      expression, the template it was made from, its fixed draws, its
      `frameAdjust` bias and its face-forward state. */
  datatype Agent = Agent(index: nat, population: nat, template: string, jitter: Jitter,
                         frameAdjust: real, faceForward: bool, last: Vec3)

  /** The leader node. `slots[k]` is the agent connected to `leaderMessage[k]`,
      if any. */
  datatype Leader = Leader(controls: Controls, shape: string, slots: seq<Option<nat>>)

  /** Agents are keyed by node identity; `nextId` is the identity the next
      created node receives. Identities are never reused, unlike the host's
      node names (`herdmemb`, `herdmemb1`, ...), which come back after a
      delete; a rebuild's agents are new nodes either way. */
  datatype Scene = Scene(leader: Option<Leader>, agents: map<nat, Agent>, nextId: nat)

  /** Every node identity in use was handed out before `nextId`. */
  predicate WellFormed(s: Scene) {
    && (forall id :: id in s.agents ==> id < s.nextId)
    && (s.leader.Some? ==> SlotsBelow(Slots(s), s.nextId))
  }

  /** Every connected slot holds an identity below `b`. */
  predicate SlotsBelow(slots: seq<Option<nat>>, b: nat) {
    forall k :: 0 <= k < |slots| && slots[k].Some? ==> slots[k].value < b
  }

  function Slots(s: Scene): seq<Option<nat>>
    requires s.leader.Some?
  {
    s.leader.value.slots
  }

  /** No slot of the registry holds a connection. */
  predicate AllFree(slots: seq<Option<nat>>) {
    forall k :: 0 <= k < |slots| ==> slots[k].None?
  }

  /** No slot with index in [lo, hi) holds a connection. */
  predicate FreeBetween(slots: seq<Option<nat>>, lo: nat, hi: nat) {
    forall k :: lo <= k < hi && k < |slots| ==> slots[k].None?
  }

  /** The controls the panel writes onto the leader: the panel's offset goes
      to the leader's frame offset, and the herd size is not written at all. */
  function ControlsOf(u: Settings): (c: Controls)
    ensures c.stray == u.stray && c.focus == u.focus
    ensures c.frameOffset == u.offset && c.randomness == u.randomness
  {
    Controls(u.stray, u.focus, u.offset, u.randomness)
  }

  /** Two panels give the leader the same controls exactly when they agree on
      everything but the herd size. */
  lemma ControlsIgnorePopulation(u: Settings, v: Settings)
    ensures ControlsOf(u) == ControlsOf(v) <==> u.(population := v.population) == v
  {
  }

  /** The consecutive node identities b, b + 1, ..., b + n - 1. */
  function Ids(b: nat, n: nat): (r: seq<nat>)
    ensures |r| == n
    ensures forall k :: 0 <= k < n ==> r[k] == b + k
  {
    seq(n, k requires 0 <= k < n => b + k)
  }

  /** The connected agents of a registry, in index order. */
  function Registered(slots: seq<Option<nat>>): (ids: seq<nat>)
    ensures |ids| <= |slots|
    ensures forall id :: id in ids <==> Some(id) in slots
  {
    if |slots| == 0 then []
    else
      var front := Registered(slots[..|slots| - 1]);
      assert slots == slots[..|slots| - 1] + [slots[|slots| - 1]];
      match slots[|slots| - 1]
      case None => front
      case Some(id) => front + [id]
  }

  lemma {:induction false} RegisteredOfLayout(slots: seq<Option<nat>>, b: nat, n: nat)
    requires n <= |slots|
    requires forall k :: 0 <= k < n ==> slots[k] == Some(b + k)
    requires forall k :: n <= k < |slots| ==> slots[k].None?
    ensures Registered(slots) == Ids(b, n)
    decreases |slots|
  {
    if |slots| > 0 {
      var front := slots[..|slots| - 1];
      if |slots| > n {
        RegisteredOfLayout(front, b, n);
      } else {
        RegisteredOfLayout(front, b, n - 1);
      }
    }
  }

  lemma RegisteredOfFree(slots: seq<Option<nat>>)
    requires AllFree(slots)
    ensures Registered(slots) == []
  {
    RegisteredOfLayout(slots, 0, 0);
  }

  /** The leader's registry as the host lists it: `None` when there is no
      leader and also when nothing is connected. */
  function GetPopulation(s: Scene): (r: Option<seq<nat>>)
    ensures r.None? <==> s.leader.None? || AllFree(Slots(s))
    ensures r.Some? ==> forall id :: id in r.value <==> Some(id) in Slots(s)
  {
    if s.leader.None? then None
    else
      var ids := Registered(Slots(s));
      if ids == [] then
        assert AllFree(Slots(s)) by {
          forall k | 0 <= k < |Slots(s)|
            ensures Slots(s)[k].None?
          {
          }
        }
        None
      else
        assert !AllFree(Slots(s)) by {
          assert Some(ids[0]) in Slots(s);
        }
        Some(ids)
  }

  /** Creates the leader unless one exists; an existing leader is returned
      unchanged and the panel is not read. */
  function CreateLeader(s: Scene, u: Settings): (r: Scene)
    ensures s.leader.Some? ==> r == s
    ensures s.leader.None? ==> r.leader == Some(Leader(ControlsOf(u), "", [])) && r.agents == s.agents && r.nextId == s.nextId
  {
    if s.leader.Some? then s
    else s.(leader := Some(Leader(ControlsOf(u), "", [])))
  }

  lemma CreateLeaderIdempotent(s: Scene, u1: Settings, u2: Settings)
    ensures CreateLeader(CreateLeader(s, u1), u2) == CreateLeader(s, u1)
    ensures WellFormed(s) ==> WellFormed(CreateLeader(s, u1))
  {
  }

  /** Copies the panel onto the leader's controls. */
  function EditMotion(s: Scene, u: Settings): (r: Result<Scene, HerdError>)
    ensures r.Failure? <==> s.leader.None?
    ensures r.Failure? ==> r.error == MissingLeader
    ensures r.Success? ==> && r.value.leader.Some?
                           && r.value.leader.value.controls == ControlsOf(u)
                           && r.value.leader.value.shape == s.leader.value.shape
                           && Slots(r.value) == Slots(s)
                           && r.value.agents == s.agents && r.value.nextId == s.nextId
  {
    if s.leader.None? then Failure(MissingLeader)
    else Success(s.(leader := Some(s.leader.value.(controls := ControlsOf(u)))))
  }

  /** Stores the template shape on the leader. */
  function RecordShape(s: Scene, shape: string): (r: Scene)
    requires s.leader.Some?
    ensures r.leader.Some? && r.leader.value.shape == shape
    ensures r.leader.value.controls == s.leader.value.controls && Slots(r) == Slots(s)
    ensures r.agents == s.agents && r.nextId == s.nextId
  {
    s.(leader := Some(s.leader.value.(shape := shape)))
  }

  /** A freshly created agent: no frame adjustment, face-forward on, history
      seeded from where the agent stands when its rig is built. */
  function NewAgent(index: nat, population: nat, template: string, j: Jitter, origin: Vec3): (a: Agent)
    ensures a.index == index && a.population == population && a.template == template && a.jitter == j
    ensures a.frameAdjust == 0.0 && a.faceForward
    ensures a.last == origin
  {
    Agent(index, population, template, j, 0.0, true, Orientation.InitialHistory(origin))
  }

  /** A new agent's first face-forward target is where it was created, and
      each later one is where it stood one evaluation earlier. */
  lemma NewAgentTrailsCreation(index: nat, population: nat, template: string, j: Jitter, origin: Vec3,
                               frames: seq<Orientation.Frame>)
    requires forall k :: 0 <= k < |frames| ==> frames[k].faceForward
    ensures var a := NewAgent(index, population, template, j, origin);
      && (|frames| > 0 ==> Orientation.Run(a.last, frames).targets[0] == origin)
      && (forall k :: 0 < k < |frames| ==> Orientation.Run(a.last, frames).targets[k] == frames[k - 1].position)
  {
    Orientation.FaceForwardTrailsCreation(origin, frames);
  }

  /** Connects `id` to `slots[i]`, growing the registry when `i` is past its end. */
  function Place(slots: seq<Option<nat>>, i: nat, id: nat): (r: seq<Option<nat>>)
    ensures |r| == if i < |slots| then |slots| else i + 1
    ensures r[i] == Some(id)
    ensures forall k :: 0 <= k < |slots| && k != i ==> r[k] == slots[k]
    ensures forall k :: |slots| <= k < |r| && k != i ==> r[k].None?
  {
    if i < |slots| then slots[i := Some(id)]
    else slots + seq(i - |slots|, _ => None) + [Some(id)]
  }

  /** Connecting slot `i` leaves every later slot as it was, so whether the
      slots after `i` are free does not change. */
  lemma PlaceKeepsLater(slots: seq<Option<nat>>, i: nat, id: nat, n: nat)
    ensures forall k :: i < k < |Place(slots, i, id)| ==> k < |slots| && Place(slots, i, id)[k] == slots[k]
    ensures FreeBetween(Place(slots, i, id), i + 1, n) <==> FreeBetween(slots, i + 1, n)
  {
    var r := Place(slots, i, id);
    assert |r| <= |slots| || |r| == i + 1;
  }

  /** Connecting an identity below `b` keeps every slot below `b`. */
  lemma PlaceKeepsBelow(slots: seq<Option<nat>>, i: nat, id: nat, b: nat)
    requires SlotsBelow(slots, b) && id < b
    ensures SlotsBelow(Place(slots, i, id), b)
  {
    var r := Place(slots, i, id);
    forall k | 0 <= k < |r| && r[k].Some?
      ensures r[k].value < b
    {
      if k != i && k < |slots| {
        assert r[k] == slots[k];
      }
    }
  }

  /** Connects agent `id` to `leaderMessage[index]`; refused when that slot is
      already connected. */
  function Register(s: Scene, index: nat, id: nat): (r: Result<Scene, HerdError>)
    ensures s.leader.None? ==> r == Failure(MissingLeader)
    ensures s.leader.Some? ==> (r.Failure? <==> index < |Slots(s)| && Slots(s)[index].Some?)
    ensures s.leader.Some? && r.Failure? ==> r.error == AlreadyConnected(index)
    ensures r.Success? ==> && r.value.leader.Some?
                           && r.value.leader.value.controls == s.leader.value.controls
                           && r.value.leader.value.shape == s.leader.value.shape
                           && Slots(r.value) == Place(Slots(s), index, id)
                           && r.value.agents == s.agents && r.value.nextId == s.nextId
  {
    if s.leader.None? then Failure(MissingLeader)
    else if index < |Slots(s)| && Slots(s)[index].Some? then Failure(AlreadyConnected(index))
    else Success(s.(leader := Some(s.leader.value.(slots := Place(Slots(s), index, id)))))
  }

  /** Adds agent node `a` under the next free identity. */
  function AddAgent(s: Scene, a: Agent): (r: Scene)
    ensures r.leader == s.leader && r.nextId == s.nextId + 1
    ensures r.agents == s.agents[s.nextId := a]
  {
    s.(agents := s.agents[s.nextId := a], nextId := s.nextId + 1)
  }

  /** The scene after a build, the agents it created and the error that ended
      it, if any. */
  datatype BuildOutcome = BuildOutcome(scene: Scene, created: seq<nat>, error: Option<HerdError>)

  /** Agents `i` to `n - 1` of a herd of `n`: each is created, then registered
      at its index; a refused registration ends the build with the agent's
      node already created. */
  function BuildFrom(s: Scene, i: nat, n: nat, template: string,
                     draws: nat -> Jitter, origins: nat -> Vec3): (r: BuildOutcome)
    requires s.leader.Some?
    requires i <= n
    ensures r.scene.leader.Some?
    ensures r.scene.leader.value.controls == s.leader.value.controls
    ensures r.scene.leader.value.shape == s.leader.value.shape
    ensures r.error.None? <==> FreeBetween(Slots(s), i, n)
    ensures r.error.Some? ==> && r.error.value.AlreadyConnected?
                              && i <= r.error.value.index < n
                              && r.error.value.index < |Slots(s)|
                              && Slots(s)[r.error.value.index].Some?
                              && FreeBetween(Slots(s), i, r.error.value.index)
                              && |r.created| == r.error.value.index - i + 1
    ensures r.error.None? ==> |r.created| == n - i
    ensures forall k :: 0 <= k < |r.created| ==> r.created[k] == s.nextId + k
    ensures r.scene.nextId == s.nextId + |r.created|
    decreases n - i, 1
  {
    if i == n then BuildOutcome(s, [], None)
    else
      PlaceKeepsLater(Slots(s), i, s.nextId, n);
      BuildAgent(s, i, n, template, draws, origins)
  }

  /** Agent `i` of a build: its node is created, then registered; a
      successful registration goes on to agent `i + 1`. */
  function BuildAgent(s: Scene, i: nat, n: nat, template: string,
                      draws: nat -> Jitter, origins: nat -> Vec3): BuildOutcome
    requires s.leader.Some?
    requires i < n
    decreases n - i, 0
  {
    var id := s.nextId;
    var s1 := AddAgent(s, NewAgent(i, n, template, draws(i), origins(i)));
    match Register(s1, i, id)
    case Failure(e) => BuildOutcome(s1, [id], Some(e))
    case Success(s2) =>
      var rest := BuildFrom(s2, i + 1, n, template, draws, origins);
      BuildOutcome(rest.scene, [id] + rest.created, rest.error)
  }


  /** One step of a build whose slots are free: agent `i` is created under
      the next identity and connected to slot `i`, and the build carries on
      from the scene `s2` this leaves. */
  lemma BuildStep(s: Scene, i: nat, n: nat, template: string, draws: nat -> Jitter, origins: nat -> Vec3)
    returns (s2: Scene)
    requires s.leader.Some?
    requires i < n
    requires FreeBetween(Slots(s), i, n)
    ensures s2.leader.Some? && FreeBetween(Slots(s2), i + 1, n)
    ensures |Slots(s2)| == (if i < |Slots(s)| then |Slots(s)| else i + 1)
    ensures Slots(s2)[i] == Some(s.nextId)
    ensures forall k :: 0 <= k < |Slots(s)| && k != i ==> Slots(s2)[k] == Slots(s)[k]
    ensures s2.agents == s.agents[s.nextId := NewAgent(i, n, template, draws(i), origins(i))]
    ensures s2.nextId == s.nextId + 1
    ensures BuildFrom(s, i, n, template, draws, origins).scene == BuildFrom(s2, i + 1, n, template, draws, origins).scene
  {
    s2 := Register(AddAgent(s, NewAgent(i, n, template, draws(i), origins(i))), i, s.nextId).value;
    PlaceKeepsLater(Slots(s), i, s.nextId, n);
  }

  /** A successful build from agent `i` grows the registry only as far as
      slot n - 1 and leaves every slot outside i to n - 1 alone. */
  lemma {:induction false} BuildFromKeepsOtherSlots(s: Scene, i: nat, n: nat, template: string,
                                                    draws: nat -> Jitter, origins: nat -> Vec3)
    requires s.leader.Some?
    requires i <= n && i <= |Slots(s)|
    requires FreeBetween(Slots(s), i, n)
    ensures var r := Slots(BuildFrom(s, i, n, template, draws, origins).scene);
      && |r| == (if n <= |Slots(s)| then |Slots(s)| else n)
      && (forall k :: 0 <= k < |Slots(s)| && !(i <= k < n) ==> r[k] == Slots(s)[k])
    decreases n - i
  {
    if i < n {
      var s2 := BuildStep(s, i, n, template, draws, origins);
      BuildFromKeepsOtherSlots(s2, i + 1, n, template, draws, origins);
    }
  }

  /** Slots `lo` to `hi - 1` hold the identities `first`, `first + 1`, ... in
      order. */
  predicate HoldsRun(slots: seq<Option<nat>>, lo: nat, hi: nat, first: nat) {
    forall k: nat :: lo <= k < hi ==> HoldsAt(slots, lo, first, k)
  }

  /** Slot `k` holds the identity `first + (k - lo)`. */
  predicate HoldsAt(slots: seq<Option<nat>>, lo: nat, first: nat, k: nat) {
    k < |slots| && slots[k] == Some(first + (k - lo))
  }

  /** A successful build from agent `i` connects slot `k` of i to n - 1 to
      the identity `s.nextId + (k - i)`. */
  lemma {:induction false} BuildFromFillsSlot(s: Scene, i: nat, n: nat, template: string,
                                              draws: nat -> Jitter, origins: nat -> Vec3, k: nat)
    requires s.leader.Some?
    requires i <= k < n && i <= |Slots(s)|
    requires FreeBetween(Slots(s), i, n)
    ensures HoldsAt(Slots(BuildFrom(s, i, n, template, draws, origins).scene), i, s.nextId, k)
    decreases n - i
  {
    var s2 := BuildStep(s, i, n, template, draws, origins);
    BuildFromKeepsOtherSlots(s2, i + 1, n, template, draws, origins);
    if k > i {
      BuildFromFillsSlot(s2, i + 1, n, template, draws, origins, k);
      assert s2.nextId + (k - (i + 1)) == s.nextId + (k - i);
    }
  }

  /** All of slots i to n - 1 are filled that way. */
  lemma BuildFromFillsSlots(s: Scene, i: nat, n: nat, template: string,
                            draws: nat -> Jitter, origins: nat -> Vec3)
    requires s.leader.Some?
    requires i <= n && i <= |Slots(s)|
    requires FreeBetween(Slots(s), i, n)
    ensures HoldsRun(Slots(BuildFrom(s, i, n, template, draws, origins).scene), i, n, s.nextId)
  {
    var r := Slots(BuildFrom(s, i, n, template, draws, origins).scene);
    forall k: nat | i <= k < n
      ensures HoldsAt(r, i, s.nextId, k)
    {
      BuildFromFillsSlot(s, i, n, template, draws, origins, k);
    }
  }

  /** A successful build from agent `i` connects the agents it creates to
      slots i to n - 1 in order and leaves every other slot alone. */
  lemma BuildFromSlots(s: Scene, i: nat, n: nat, template: string,
                       draws: nat -> Jitter, origins: nat -> Vec3)
    requires s.leader.Some?
    requires i <= n && i <= |Slots(s)|
    requires FreeBetween(Slots(s), i, n)
    ensures var r := BuildFrom(s, i, n, template, draws, origins).scene;
      && |Slots(r)| == (if n <= |Slots(s)| then |Slots(s)| else n)
      && (forall k :: 0 <= k < i ==> Slots(r)[k] == Slots(s)[k])
      && HoldsRun(Slots(r), i, n, s.nextId)
      && (forall k :: n <= k < |Slots(s)| ==> Slots(r)[k] == Slots(s)[k])
  {
    BuildFromKeepsOtherSlots(s, i, n, template, draws, origins);
    BuildFromFillsSlots(s, i, n, template, draws, origins);
  }

  /** A successful build from agent `i` adds a node under each of the next
      `n - i` identities and under no other new identity. */
  lemma {:induction false} BuildFromNodeSet(s: Scene, i: nat, n: nat, template: string,
                                            draws: nat -> Jitter, origins: nat -> Vec3)
    requires s.leader.Some?
    requires i <= n
    requires FreeBetween(Slots(s), i, n)
    ensures var r := BuildFrom(s, i, n, template, draws, origins).scene;
      forall id :: id in r.agents <==> id in s.agents || s.nextId <= id < s.nextId + (n - i)
    decreases n - i
  {
    if i < n {
      var s2 := BuildStep(s, i, n, template, draws, origins);
      BuildFromNodeSet(s2, i + 1, n, template, draws, origins);
    }
  }

  /** A successful build from agent `i` keeps node `id` if its identity was
      handed out before the build started. */
  lemma {:induction false} BuildFromKeepsNode(s: Scene, i: nat, n: nat, template: string,
                                              draws: nat -> Jitter, origins: nat -> Vec3, id: nat)
    requires s.leader.Some?
    requires i <= n
    requires FreeBetween(Slots(s), i, n)
    requires id in s.agents && id < s.nextId
    ensures var r := BuildFrom(s, i, n, template, draws, origins).scene;
      id in r.agents && r.agents[id] == s.agents[id]
    decreases n - i
  {
    if i < n {
      var s2 := BuildStep(s, i, n, template, draws, origins);
      BuildFromKeepsNode(s2, i + 1, n, template, draws, origins, id);
    }
  }

  /** A successful build from agent `i` keeps every node whose identity was
      handed out before it started. */
  lemma BuildFromKeepsOld(s: Scene, i: nat, n: nat, template: string,
                          draws: nat -> Jitter, origins: nat -> Vec3)
    requires s.leader.Some?
    requires i <= n
    requires FreeBetween(Slots(s), i, n)
    ensures var r := BuildFrom(s, i, n, template, draws, origins).scene;
      forall id :: id in s.agents && id < s.nextId ==> id in r.agents && r.agents[id] == s.agents[id]
  {
    forall id | id in s.agents && id < s.nextId
      ensures id in BuildFrom(s, i, n, template, draws, origins).scene.agents
      ensures BuildFrom(s, i, n, template, draws, origins).scene.agents[id] == s.agents[id]
    {
      BuildFromKeepsNode(s, i, n, template, draws, origins, id);
    }
  }

  /** `a` is the node a build from `template` with herd size `n` creates for
      agent `k`. */
  predicate MadeFor(a: Agent, k: nat, n: nat, template: string, draws: nat -> Jitter, origins: nat -> Vec3) {
    a == NewAgent(k, n, template, draws(k), origins(k))
  }

  /** A successful build from agent `i` puts agent `i + (id - s.nextId)`
      under each identity `id` it hands out. */
  lemma {:induction false} BuildFromNewNode(s: Scene, i: nat, n: nat, template: string,
                                            draws: nat -> Jitter, origins: nat -> Vec3, id: nat)
    requires s.leader.Some?
    requires i <= n
    requires FreeBetween(Slots(s), i, n)
    requires s.nextId <= id < s.nextId + (n - i)
    ensures var r := BuildFrom(s, i, n, template, draws, origins).scene;
      id in r.agents && MadeFor(r.agents[id], i + (id - s.nextId), n, template, draws, origins)
    decreases n - i
  {
    var s2 := BuildStep(s, i, n, template, draws, origins);
    if id == s.nextId {
      BuildFromKeepsNode(s2, i + 1, n, template, draws, origins, id);
      assert MadeFor(s2.agents[id], i, n, template, draws, origins);
    } else {
      BuildFromNewNode(s2, i + 1, n, template, draws, origins, id);
      assert (i + 1) + (id - s2.nextId) == i + (id - s.nextId);
    }
  }

  /** A successful build from agent `i` puts agent `i + j` under identity
      `s.nextId + j`. */
  lemma BuildFromNewNodes(s: Scene, i: nat, n: nat, template: string,
                          draws: nat -> Jitter, origins: nat -> Vec3)
    requires s.leader.Some?
    requires i <= n
    requires FreeBetween(Slots(s), i, n)
    ensures var r := BuildFrom(s, i, n, template, draws, origins).scene;
      forall id :: s.nextId <= id < s.nextId + (n - i) ==>
        id in r.agents && MadeFor(r.agents[id], i + (id - s.nextId), n, template, draws, origins)
  {
    forall id | s.nextId <= id < s.nextId + (n - i)
      ensures id in BuildFrom(s, i, n, template, draws, origins).scene.agents
      ensures MadeFor(BuildFrom(s, i, n, template, draws, origins).scene.agents[id], i + (id - s.nextId),
                      n, template, draws, origins)
    {
      BuildFromNewNode(s, i, n, template, draws, origins, id);
    }
  }

  /** A successful build from agent `i` adds one new node per agent, under
      fresh identities in index order, and keeps every existing node. */
  lemma BuildFromAgents(s: Scene, i: nat, n: nat, template: string,
                        draws: nat -> Jitter, origins: nat -> Vec3)
    requires s.leader.Some?
    requires i <= n
    requires FreeBetween(Slots(s), i, n)
    requires forall id :: id in s.agents ==> id < s.nextId
    ensures var r := BuildFrom(s, i, n, template, draws, origins).scene;
      && (forall id :: id in r.agents <==> id in s.agents || s.nextId <= id < s.nextId + (n - i))
      && (forall id :: id in s.agents ==> r.agents[id] == s.agents[id])
      && (forall id :: s.nextId <= id < s.nextId + (n - i) ==>
            (id in r.agents && r.agents[id] == NewAgent(i + (id - s.nextId), n, template,
                                                        draws(i + (id - s.nextId)), origins(i + (id - s.nextId)))))
  {
    BuildFromNodeSet(s, i, n, template, draws, origins);
    BuildFromKeepsOld(s, i, n, template, draws, origins);
    BuildFromNewNodes(s, i, n, template, draws, origins);
    var r := BuildFrom(s, i, n, template, draws, origins).scene;
    forall id | s.nextId <= id < s.nextId + (n - i)
      ensures id in r.agents && r.agents[id] == NewAgent(i + (id - s.nextId), n, template,
                                                         draws(i + (id - s.nextId)), origins(i + (id - s.nextId)))
    {
      assert MadeFor(r.agents[id], i + (id - s.nextId), n, template, draws, origins);
    }
  }

  /** Builds a herd of `n` agents from `template`, in index order. Without a
      leader an empty herd builds nothing and succeeds, since the loop never
      runs; any other herd fails on the missing leader. */
  function Build(s: Scene, n: nat, template: string, draws: nat -> Jitter, origins: nat -> Vec3): (r: BuildOutcome)
    ensures s.leader.None? ==> r == BuildOutcome(s, [], if n == 0 then None else Some(MissingLeader))
    ensures s.leader.Some? ==> (r.error.None? <==> FreeBetween(Slots(s), 0, n))
    ensures s.leader.Some? && r.error.Some? ==>
      && r.error.value.AlreadyConnected?
      && r.error.value.index < n
      && r.error.value.index < |Slots(s)|
      && Slots(s)[r.error.value.index].Some?
      && FreeBetween(Slots(s), 0, r.error.value.index)
      && r.created == Ids(s.nextId, r.error.value.index + 1)
    ensures r.error.None? ==> r.created == Ids(s.nextId, n)
    ensures r.scene.nextId == s.nextId + |r.created|
  {
    if s.leader.None? then BuildOutcome(s, [], if n == 0 then None else Some(MissingLeader))
    else
      var r := BuildFrom(s, 0, n, template, draws, origins);
      assert r.error.None? ==> r.created == Ids(s.nextId, n);
      assert r.error.Some? ==> r.created == Ids(s.nextId, r.error.value.index + 1);
      r
  }

  /** One step of any build: agent `i` is created under the next identity;
      if slot `i` is taken the build stops there, otherwise the agent is
      connected to it and the build carries on from the scene `s2` this
      leaves. */
  lemma BuildFromUnfold(s: Scene, i: nat, n: nat, template: string, draws: nat -> Jitter, origins: nat -> Vec3)
    returns (s1: Scene, s2: Option<Scene>)
    requires s.leader.Some?
    requires i < n
    ensures s1.leader == s.leader && s1.nextId == s.nextId + 1
    ensures s1.agents == s.agents[s.nextId := NewAgent(i, n, template, draws(i), origins(i))]
    ensures s2.None? <==> i < |Slots(s)| && Slots(s)[i].Some?
    ensures s2.None? ==> BuildFrom(s, i, n, template, draws, origins) == BuildOutcome(s1, [s.nextId], Some(AlreadyConnected(i)))
    ensures s2.Some? ==> && s2.value.leader.Some?
                         && s2.value.agents == s1.agents && s2.value.nextId == s1.nextId
                         && Slots(s2.value) == Place(Slots(s), i, s.nextId)
                         && BuildFrom(s, i, n, template, draws, origins).scene == BuildFrom(s2.value, i + 1, n, template, draws, origins).scene
                         && BuildFrom(s, i, n, template, draws, origins).error == BuildFrom(s2.value, i + 1, n, template, draws, origins).error
  {
    s1 := AddAgent(s, NewAgent(i, n, template, draws(i), origins(i)));
    var reg := Register(s1, i, s.nextId);
    s2 := if reg.Success? then Some(reg.value) else None;
  }

  /** A build from agent `i` never touches the slots below `i`, whatever its
      outcome. */
  lemma {:induction false} BuildFromKeepsEarlierSlot(s: Scene, i: nat, n: nat, template: string,
                                                     draws: nat -> Jitter, origins: nat -> Vec3, k: nat)
    requires s.leader.Some?
    requires i <= n
    requires k < i && k < |Slots(s)|
    ensures var r := Slots(BuildFrom(s, i, n, template, draws, origins).scene);
      k < |r| && r[k] == Slots(s)[k]
    decreases n - i
  {
    var r := BuildFrom(s, i, n, template, draws, origins);
    if i == n {
      assert r.scene == s;
    } else {
      var s1, s2 := BuildFromUnfold(s, i, n, template, draws, origins);
      if s2.None? {
        assert Slots(r.scene) == Slots(s1) == Slots(s);
      } else {
        var t := s2.value;
        BuildFromKeepsEarlierSlot(t, i + 1, n, template, draws, origins, k);
        assert Slots(t)[k] == Slots(s)[k];
        assert Slots(r.scene) == Slots(BuildFrom(t, i + 1, n, template, draws, origins).scene);
      }
    }
  }

  /** A build from agent `i` refused past slot `i` has connected slot `i` to
      the first agent it created. */
  lemma BuildFromFailedFirstSlot(s: Scene, i: nat, n: nat, template: string,
                                 draws: nat -> Jitter, origins: nat -> Vec3)
    requires s.leader.Some?
    requires i < n
    ensures var r := BuildFrom(s, i, n, template, draws, origins);
      r.error.Some? && i < r.error.value.index ==>
        i < |Slots(r.scene)| && Slots(r.scene)[i] == Some(s.nextId)
  {
    var s1, s2 := BuildFromUnfold(s, i, n, template, draws, origins);
    if s2.Some? {
      var t := s2.value;
      BuildFromKeepsEarlierSlot(t, i + 1, n, template, draws, origins, i);
      assert Slots(t)[i] == Some(s.nextId);
    }
  }

  /** A build from agent `i` refused at slot `idx` has connected each slot `k`
      of i to idx - 1 to the agent it created for `k`. */
  lemma {:induction false} BuildFromFailedSlot(s: Scene, i: nat, n: nat, template: string,
                                               draws: nat -> Jitter, origins: nat -> Vec3, k: nat)
    requires s.leader.Some?
    requires i <= k && i <= n
    ensures var r := BuildFrom(s, i, n, template, draws, origins);
      r.error.Some? && k < r.error.value.index ==>
        k < |Slots(r.scene)| && Slots(r.scene)[k] == Some(s.nextId + (k - i))
    decreases n - i
  {
    var r := BuildFrom(s, i, n, template, draws, origins);
    if i == n {
      assert r.error.None?;
    } else if k == i {
      BuildFromFailedFirstSlot(s, i, n, template, draws, origins);
    } else {
      var s1, s2 := BuildFromUnfold(s, i, n, template, draws, origins);
      if s2.None? {
        assert r.error == Some(AlreadyConnected(i));
      } else {
        var t := s2.value;
        var rest := BuildFrom(t, i + 1, n, template, draws, origins);
        assert r.scene == rest.scene && r.error == rest.error;
        BuildFromFailedSlot(t, i + 1, n, template, draws, origins, k);
        if rest.error.Some? && k < rest.error.value.index {
          assert Slots(rest.scene)[k] == Some(t.nextId + (k - (i + 1)));
          assert t.nextId + (k - (i + 1)) == s.nextId + (k - i);
        }
      }
    }
  }

  /** All of slots i to idx - 1 are filled that way. */
  lemma BuildFromFailedSlots(s: Scene, i: nat, n: nat, template: string,
                             draws: nat -> Jitter, origins: nat -> Vec3)
    requires s.leader.Some?
    requires i <= n
    ensures var r := BuildFrom(s, i, n, template, draws, origins);
      r.error.Some? ==> HoldsRun(Slots(r.scene), i, r.error.value.index, s.nextId)
  {
    var r := BuildFrom(s, i, n, template, draws, origins);
    if r.error.Some? {
      forall k: nat | i <= k < r.error.value.index
        ensures HoldsAt(Slots(r.scene), i, s.nextId, k)
      {
        BuildFromFailedSlot(s, i, n, template, draws, origins, k);
      }
    }
  }

  /** A build from agent `i` refused at slot `idx` leaves the node it created
      for agent `idx` in the scene. */
  lemma {:induction false} BuildFromFailedNode(s: Scene, i: nat, n: nat, template: string,
                                               draws: nat -> Jitter, origins: nat -> Vec3)
    requires s.leader.Some?
    requires i <= n
    ensures var r := BuildFrom(s, i, n, template, draws, origins);
      r.error.Some? ==>
        var idx := r.error.value.index;
        && s.nextId + (idx - i) in r.scene.agents
        && MadeFor(r.scene.agents[s.nextId + (idx - i)], idx, n, template, draws, origins)
    decreases n - i
  {
    var r := BuildFrom(s, i, n, template, draws, origins);
    if i == n {
      assert r.error.None?;
    } else {
      var s1, s2 := BuildFromUnfold(s, i, n, template, draws, origins);
      if s2.None? {
        assert r.scene == s1 && r.error == Some(AlreadyConnected(i));
        assert MadeFor(s1.agents[s.nextId], i, n, template, draws, origins);
      } else {
        var t := s2.value;
        var rest := BuildFrom(t, i + 1, n, template, draws, origins);
        assert r.scene == rest.scene && r.error == rest.error;
        BuildFromFailedNode(t, i + 1, n, template, draws, origins);
        if rest.error.Some? {
          var idx := rest.error.value.index;
          var last := s.nextId + (idx - i);
          assert last == t.nextId + (idx - (i + 1));
          assert last in rest.scene.agents && MadeFor(rest.scene.agents[last], idx, n, template, draws, origins);
        }
      }
    }
  }


  /** ... and connects that node to no slot, when every identity already
      connected was handed out before the build. */
  lemma {:induction false} BuildFromFailedNodeUnslotted(s: Scene, i: nat, n: nat, template: string,
                                                        draws: nat -> Jitter, origins: nat -> Vec3)
    requires s.leader.Some?
    requires i <= n
    requires SlotsBelow(Slots(s), s.nextId)
    ensures var r := BuildFrom(s, i, n, template, draws, origins);
      r.error.Some? ==> Some(s.nextId + (r.error.value.index - i)) !in Slots(r.scene)
    decreases n - i
  {
    var r := BuildFrom(s, i, n, template, draws, origins);
    if i == n {
      assert r.error.None?;
    } else {
      var s1, s2 := BuildFromUnfold(s, i, n, template, draws, origins);
      if s2.None? {
        assert r.scene == s1 && r.error == Some(AlreadyConnected(i));
        assert Slots(s1) == Slots(s);
      } else {
        var t := s2.value;
        var rest := BuildFrom(t, i + 1, n, template, draws, origins);
        assert r.scene == rest.scene && r.error == rest.error;
        PlaceKeepsBelow(Slots(s), i, s.nextId, t.nextId);
        BuildFromFailedNodeUnslotted(t, i + 1, n, template, draws, origins);
        if rest.error.Some? {
          var idx := rest.error.value.index;
          assert s.nextId + (idx - i) == t.nextId + (idx - (i + 1));
        }
      }
    }
  }


  /** A build refused at slot `idx` leaves a partial herd: agents 0 to idx - 1
      are created and connected to their slots in order, and agent `idx` is
      created but connected to nothing. Nothing is rolled back. */
  lemma BuildFailureLeavesPartialHerd(s: Scene, n: nat, template: string, draws: nat -> Jitter, origins: nat -> Vec3)
    requires s.leader.Some? && WellFormed(s)
    ensures var r := Build(s, n, template, draws, origins);
      r.error.Some? ==>
        var idx := r.error.value.index;
        && r.created == Ids(s.nextId, idx + 1)
        && HoldsRun(Slots(r.scene), 0, idx, s.nextId)
        && s.nextId + idx in r.scene.agents
        && r.scene.agents[s.nextId + idx] == NewAgent(idx, n, template, draws(idx), origins(idx))
        && Some(s.nextId + idx) !in Slots(r.scene)
  {
    var r := Build(s, n, template, draws, origins);
    assert r == BuildFrom(s, 0, n, template, draws, origins);
    if r.error.Some? {
      var idx := r.error.value.index;
      BuildFromFailedNode(s, 0, n, template, draws, origins);
      assert MadeFor(r.scene.agents[s.nextId + idx], idx, n, template, draws, origins);
      BuildFromFailedNodeUnslotted(s, 0, n, template, draws, origins);
      BuildFromFailedSlots(s, 0, n, template, draws, origins);
    }
  }


  /** On a leader with an empty registry, a build of `n` registers exactly `n`
      new agents at indices 0 to n - 1 in order and leaves the leader's
      controls and shape alone. For `n == 0` nothing is registered and the
      registry query answers `None`. */
  lemma BuildRegistersInOrder(s: Scene, n: nat, template: string, draws: nat -> Jitter, origins: nat -> Vec3)
    requires s.leader.Some?
    requires AllFree(Slots(s))
    ensures var r := Build(s, n, template, draws, origins);
      && r.error.None?
      && r.scene.leader.value.controls == s.leader.value.controls
      && r.scene.leader.value.shape == s.leader.value.shape
      && r.created == Ids(s.nextId, n)
      && Registered(Slots(r.scene)) == r.created
      && GetPopulation(r.scene) == (if n == 0 then None else Some(r.created))
  {
    var r := Build(s, n, template, draws, origins);
    BuildFromSlots(s, 0, n, template, draws, origins);
    forall k | 0 <= k < n
      ensures Slots(r.scene)[k] == Some(s.nextId + k)
    {
      assert HoldsAt(Slots(r.scene), 0, s.nextId, k);
    }
    RegisteredOfLayout(Slots(r.scene), s.nextId, n);
    if n == 0 {
      RegisteredOfFree(Slots(r.scene));
    }
  }

  /** The nodes after such a build: the k-th agent created is a new node for
      agent k, made from `template` with herd size `n` baked in. */
  lemma BuildCreatesAgents(s: Scene, n: nat, template: string, draws: nat -> Jitter, origins: nat -> Vec3)
    requires s.leader.Some? && WellFormed(s)
    requires AllFree(Slots(s))
    ensures var r := Build(s, n, template, draws, origins);
      forall k :: 0 <= k < n ==>
        (r.created[k] in r.scene.agents && r.scene.agents[r.created[k]] == NewAgent(k, n, template, draws(k), origins(k)))
  {
    var r := Build(s, n, template, draws, origins);
    BuildFromAgents(s, 0, n, template, draws, origins);
    forall k | 0 <= k < n
      ensures r.created[k] in r.scene.agents
      ensures r.scene.agents[r.created[k]] == NewAgent(k, n, template, draws(k), origins(k))
    {
      assert r.created[k] == s.nextId + k;
    }
  }

  /** Such a build keeps every earlier node unchanged, adds nothing but the
      new agents, and hands out identities only past the earlier ones. */
  lemma BuildKeepsNodes(s: Scene, n: nat, template: string, draws: nat -> Jitter, origins: nat -> Vec3)
    requires s.leader.Some? && WellFormed(s)
    requires AllFree(Slots(s))
    ensures var r := Build(s, n, template, draws, origins).scene;
      && WellFormed(r)
      && (forall id :: id in r.agents <==> id in s.agents || s.nextId <= id < s.nextId + n)
      && (forall id :: id in s.agents ==> r.agents[id] == s.agents[id])
  {
    BuildPreservesWellFormed(s, n, template, draws, origins);
    BuildFromAgents(s, 0, n, template, draws, origins);
  }

  /** The position of agent `id` at `frame`, driven by the leader's live
      controls; `None` when the agent or the leader is missing, or when the
      damping divides by a zero herd size. */
  function EvaluateAgent(s: Scene, id: nat, frame: real, leader: real -> Vec3): (p: Option<Vec3>)
    ensures p.Some? ==> s.leader.Some? && id in s.agents
    ensures s.leader.Some? && id in s.agents && s.agents[id].population > 0 ==> p.Some?
  {
    if s.leader.None? || id !in s.agents then None
    else
      var a := s.agents[id];
      Position(s.leader.value.controls, a.index, a.population, a.jitter, a.frameAdjust, frame, leader)
  }

  /** Every agent a build registers can be evaluated: its baked herd size is
      positive, so the damping never divides by zero. */
  lemma BuiltAgentsEvaluate(s: Scene, n: nat, template: string, draws: nat -> Jitter, origins: nat -> Vec3,
                            frame: real, leader: real -> Vec3)
    requires s.leader.Some? && WellFormed(s)
    requires AllFree(Slots(s))
    ensures var r := Build(s, n, template, draws, origins).scene;
      forall id :: id in Registered(Slots(r)) ==> EvaluateAgent(r, id, frame, leader).Some?
  {
    var r := Build(s, n, template, draws, origins).scene;
    BuildRegistersInOrder(s, n, template, draws, origins);
    BuildCreatesAgents(s, n, template, draws, origins);
    forall id | id in Registered(Slots(r))
      ensures EvaluateAgent(r, id, frame, leader).Some?
    {
      var k :| 0 <= k < n && Build(s, n, template, draws, origins).created[k] == id;
    }
  }

  /** With the panel in range and draws in [0, 1), every agent stays within the
      stray of where the leader was at its sample time. */
  lemma AgentsStayWithinStray(s: Scene, u: Settings, id: nat, frame: real, leader: real -> Vec3)
    requires s.leader.Some? && s.leader.value.controls == ControlsOf(u) && InRange(u)
    requires id in s.agents && s.agents[id].population > 0 && ValidJitter(s.agents[id].jitter)
    ensures var a := s.agents[id];
            var p := EvaluateAgent(s, id, frame, leader);
            var at := leader(AgentSampleTime(ControlsOf(u), a.index, a.jitter, a.frameAdjust, frame));
      && p.Some?
      && WithinRadius(Sub(p.value, at),
                      StrayRadius(u.stray, u.focus, HerdVar(a.jitter.phase, u.randomness, a.index), a.population).value)
      && StrayRadius(u.stray, u.focus, HerdVar(a.jitter.phase, u.randomness, a.index), a.population).value <= MaxStray
  {
  }

  /** Deletes the nodes `ids` and the registry connections they held. */
  function Remove(s: Scene, ids: set<nat>): (r: Scene)
    requires s.leader.Some?
    ensures r.leader.Some? && r.nextId == s.nextId
    ensures r.leader.value.controls == s.leader.value.controls && r.leader.value.shape == s.leader.value.shape
    ensures |Slots(r)| == |Slots(s)|
    ensures forall k :: 0 <= k < |Slots(s)| ==>
              Slots(r)[k] == if Slots(s)[k].Some? && Slots(s)[k].value in ids then None else Slots(s)[k]
    ensures forall id :: id in r.agents <==> id in s.agents && id !in ids
    ensures forall id :: id in r.agents ==> r.agents[id] == s.agents[id]
  {
    var slots := Slots(s);
    var kept := seq(|slots|, k requires 0 <= k < |slots| =>
                      if slots[k].Some? && slots[k].value in ids then None else slots[k]);
    Scene(Some(s.leader.value.(slots := kept)), s.agents - ids, s.nextId)
  }

  /** Deleting the herd as written: iterates the registry query, which fails
      when the query returns `None`. */
  function DeleteAsWritten(s: Scene): (r: Result<Scene, HerdError>)
    ensures r.Failure? <==> s.leader.None? || AllFree(Slots(s))
    ensures r.Failure? ==> r.error == NotIterable
    ensures r.Success? ==> r.value.leader.Some?
  {
    match GetPopulation(s)
    case None => Failure(NotIterable)
    case Some(ids) => Success(Remove(s, set id | id in ids))
  }

  /** Deleting the herd, with an empty registry deleting nothing. */
  function Delete(s: Scene): (r: Scene)
    ensures s.leader.None? ==> r == s
    ensures s.leader.Some? ==> && r.leader.Some? && AllFree(Slots(r))
                               && r.leader.value.controls == s.leader.value.controls
                               && r.leader.value.shape == s.leader.value.shape
                               && r.nextId == s.nextId
                               && (forall id :: id in r.agents <==> id in s.agents && Some(id) !in Slots(s))
                               && (forall id :: id in r.agents ==> r.agents[id] == s.agents[id])
  {
    if s.leader.None? then s
    else
      var r := Remove(s, set id | id in Registered(Slots(s)));
      assert AllFree(Slots(r)) by {
        forall k | 0 <= k < |Slots(r)|
          ensures Slots(r)[k].None?
        {
          if Slots(s)[k].Some? {
            assert Slots(s)[k].value in Registered(Slots(s));
          }
        }
      }
      r
  }

  lemma DeletePreservesWellFormed(s: Scene)
    requires WellFormed(s)
    ensures WellFormed(Delete(s))
  {
  }

  /** Where both deletions succeed they agree; the as-written one fails only
      on an empty or leaderless herd. */
  lemma DeleteAsWrittenAgrees(s: Scene)
    ensures DeleteAsWritten(s).Success? ==> DeleteAsWritten(s).value == Delete(s)
  {
    if DeleteAsWritten(s).Success? {
      var ids := Registered(Slots(s));
      assert (set id | id in GetPopulation(s).value) == (set id | id in ids);
    }
  }

  /** Rebuilding as written: delete, re-read the stored shape, build with the
      panel's current herd size. */
  function RebuildAsWritten(s: Scene, u: Settings, draws: nat -> Jitter, origins: nat -> Vec3): (r: BuildOutcome)
    ensures s.leader.None? || AllFree(Slots(s)) ==> r == BuildOutcome(s, [], Some(NotIterable))
  {
    match DeleteAsWritten(s)
    case Failure(e) => BuildOutcome(s, [], Some(e))
    case Success(d) => Build(d, u.population, d.leader.value.shape, draws, origins)
  }

  /** Rebuilding: delete every registered agent, re-read the stored shape and
      build with the panel's current herd size. Without a leader nothing
      changes. */
  function Rebuild(s: Scene, u: Settings, draws: nat -> Jitter, origins: nat -> Vec3): (r: BuildOutcome)
    ensures s.leader.None? ==> r == BuildOutcome(s, [], Some(MissingLeader))
    ensures s.leader.Some? ==> r.error.None?
  {
    if s.leader.None? then BuildOutcome(s, [], Some(MissingLeader))
    else
      var d := Delete(s);
      Build(d, u.population, d.leader.value.shape, draws, origins)
  }

  /** A rebuild leaves exactly the panel's current number of agents
      registered, all new, in index order, made from the stored shape; none of
      the previously registered agents survives. */
  lemma RebuildReplacesHerd(s: Scene, u: Settings, draws: nat -> Jitter, origins: nat -> Vec3)
    requires s.leader.Some? && WellFormed(s)
    ensures var r := Rebuild(s, u, draws, origins);
      && r.error.None?
      && WellFormed(r.scene)
      && r.scene.leader.value.controls == s.leader.value.controls
      && Registered(Slots(r.scene)) == Ids(s.nextId, u.population)
      && |Registered(Slots(r.scene))| == u.population
      && (forall k :: 0 <= k < u.population ==>
            var id := Registered(Slots(r.scene))[k];
            id in r.scene.agents && r.scene.agents[id] == NewAgent(k, u.population, s.leader.value.shape, draws(k), origins(k)))
      && (forall id :: Some(id) in Slots(s) ==> id !in r.scene.agents && id !in Registered(Slots(r.scene)))
  {
    var d := Delete(s);
    DeletePreservesWellFormed(s);
    var r := Build(d, u.population, d.leader.value.shape, draws, origins);
    assert r == Rebuild(s, u, draws, origins);
    BuildRegistersInOrder(d, u.population, d.leader.value.shape, draws, origins);
    BuildCreatesAgents(d, u.population, d.leader.value.shape, draws, origins);
    BuildKeepsNodes(d, u.population, d.leader.value.shape, draws, origins);
    assert d.nextId == s.nextId && d.leader.value.shape == s.leader.value.shape;
    forall id | Some(id) in Slots(s)
      ensures id !in r.scene.agents && id !in Registered(Slots(r.scene))
    {
      var k :| 0 <= k < |Slots(s)| && Slots(s)[k] == Some(id);
      assert id < s.nextId;
    }
  }

  /** The as-written rebuild of a herd with no connected agent (for example
      one built with a herd size of zero) fails instead of building. */
  lemma RebuildAsWrittenFailsOnEmptyHerd(draws: nat -> Jitter, origins: nat -> Vec3)
    ensures var s := Scene(Some(Leader(ControlsOf(Defaults), "cone", [])), map[], 0);
      && RebuildAsWritten(s, Defaults, draws, origins).error == Some(NotIterable)
      && Rebuild(s, Defaults, draws, origins).error.None?
      && |Registered(Slots(Rebuild(s, Defaults, draws, origins).scene))| == DefaultMembers
  {
    var s := Scene(Some(Leader(ControlsOf(Defaults), "cone", [])), map[], 0);
    RebuildReplacesHerd(s, Defaults, draws, origins);
  }

  /** Where the herd has connected agents, the as-written rebuild and the
      corrected one coincide. */
  lemma RebuildAsWrittenAgrees(s: Scene, u: Settings, draws: nat -> Jitter, origins: nat -> Vec3)
    requires GetPopulation(s).Some?
    ensures RebuildAsWritten(s, u, draws, origins) == Rebuild(s, u, draws, origins)
  {
    DeleteAsWrittenAgrees(s);
  }

  /** Creating a herd as written: make the leader (reusing an existing one),
      record the template through the leader handle, build. The handle is only
      set when the leader is newly made, so an existing leader fails. */
  function HerdCreateAsWritten(s: Scene, u: Settings, template: string,
                               draws: nat -> Jitter, origins: nat -> Vec3): (r: BuildOutcome)
    ensures s.leader.Some? ==> r == BuildOutcome(s, [], Some(NoLeaderHandle))
  {
    var s1 := CreateLeader(s, u);
    if s.leader.Some? then BuildOutcome(s1, [], Some(NoLeaderHandle))
    else Build(RecordShape(s1, template), u.population, template, draws, origins)
  }

  /** Creating a herd: make the leader (reusing an existing one), record the
      template on it, build. */
  function HerdCreate(s: Scene, u: Settings, template: string,
                      draws: nat -> Jitter, origins: nat -> Vec3): (r: BuildOutcome)
    ensures r.scene.leader.Some?
  {
    Build(RecordShape(CreateLeader(s, u), template), u.population, template, draws, origins)
  }

  /** On a scene without a leader, or whose leader has no connected agent, a
      herd is created with exactly the panel's number of agents in index
      order and the template recorded on the leader. */
  lemma HerdCreateBuildsHerd(s: Scene, u: Settings, template: string, draws: nat -> Jitter, origins: nat -> Vec3)
    requires WellFormed(s)
    requires s.leader.Some? ==> AllFree(Slots(s))
    ensures var r := HerdCreate(s, u, template, draws, origins);
      && r.error.None?
      && r.scene.leader.value.shape == template
      && Registered(Slots(r.scene)) == Ids(s.nextId, u.population)
      && (forall k :: 0 <= k < u.population ==>
            var id := Registered(Slots(r.scene))[k];
            id in r.scene.agents && r.scene.agents[id] == NewAgent(k, u.population, template, draws(k), origins(k)))
  {
    var s1 := RecordShape(CreateLeader(s, u), template);
    BuildRegistersInOrder(s1, u.population, template, draws, origins);
    BuildCreatesAgents(s1, u.population, template, draws, origins);
  }

  /** On a scene that already has a leader (with no agents connected), the
      as-written creation fails while the corrected one builds the herd. */
  lemma HerdCreateAsWrittenFailsOnExistingLeader(draws: nat -> Jitter, origins: nat -> Vec3)
    ensures var s := Scene(Some(Leader(ControlsOf(Defaults), "", [])), map[], 0);
      && HerdCreateAsWritten(s, Defaults, "cone", draws, origins).error == Some(NoLeaderHandle)
      && HerdCreate(s, Defaults, "cone", draws, origins).error.None?
  {
    var s := Scene(Some(Leader(ControlsOf(Defaults), "", [])), map[], 0);
    HerdCreateBuildsHerd(s, Defaults, "cone", draws, origins);
  }

  /** On a scene without a leader the two creations coincide. */
  lemma HerdCreateAsWrittenAgrees(s: Scene, u: Settings, template: string, draws: nat -> Jitter, origins: nat -> Vec3)
    requires s.leader.None?
    ensures HerdCreateAsWritten(s, u, template, draws, origins) == HerdCreate(s, u, template, draws, origins)
  {
  }

  /** Connecting an identity already handed out keeps the scene well formed. */
  lemma RegisterPreservesWellFormed(s: Scene, index: nat, id: nat)
    requires WellFormed(s) && id < s.nextId
    ensures Register(s, index, id).Success? ==> WellFormed(Register(s, index, id).value)
  {
    if Register(s, index, id).Success? {
      PlaceKeepsBelow(Slots(s), index, id, s.nextId);
    }
  }

  lemma EditMotionPreservesWellFormed(s: Scene, u: Settings)
    requires WellFormed(s)
    ensures EditMotion(s, u).Success? ==> WellFormed(EditMotion(s, u).value)
  {
  }

  lemma RecordShapePreservesWellFormed(s: Scene, shape: string)
    requires s.leader.Some? && WellFormed(s)
    ensures WellFormed(RecordShape(s, shape))
  {
  }

  /** Every build keeps the scene well formed, the refused ones included. */
  lemma {:induction false} BuildFromPreservesWellFormed(s: Scene, i: nat, n: nat, template: string,
                                                        draws: nat -> Jitter, origins: nat -> Vec3)
    requires s.leader.Some? && i <= n && WellFormed(s)
    ensures WellFormed(BuildFrom(s, i, n, template, draws, origins).scene)
    decreases n - i
  {
    if i < n {
      var s1 := AddAgent(s, NewAgent(i, n, template, draws(i), origins(i)));
      assert WellFormed(s1);
      RegisterPreservesWellFormed(s1, i, s.nextId);
      if Register(s1, i, s.nextId).Success? {
        BuildFromPreservesWellFormed(Register(s1, i, s.nextId).value, i + 1, n, template, draws, origins);
      }
    }
  }

  lemma BuildPreservesWellFormed(s: Scene, n: nat, template: string, draws: nat -> Jitter, origins: nat -> Vec3)
    requires WellFormed(s)
    ensures WellFormed(Build(s, n, template, draws, origins).scene)
  {
    if s.leader.Some? {
      BuildFromPreservesWellFormed(s, 0, n, template, draws, origins);
    }
  }

  /** Creating a herd keeps the scene well formed, whatever the outcome. */
  lemma HerdCreatePreservesWellFormed(s: Scene, u: Settings, template: string, draws: nat -> Jitter, origins: nat -> Vec3)
    requires WellFormed(s)
    ensures WellFormed(HerdCreate(s, u, template, draws, origins).scene)
  {
    CreateLeaderIdempotent(s, u, u);
    BuildPreservesWellFormed(RecordShape(CreateLeader(s, u), template), u.population, template, draws, origins);
  }

  /** Rebuilding keeps the scene well formed, so a herd left by any earlier
      build, refused or not, can be rebuilt with the guarantees of
      `RebuildReplacesHerd`. */
  lemma RebuildPreservesWellFormed(s: Scene, u: Settings, draws: nat -> Jitter, origins: nat -> Vec3)
    requires WellFormed(s)
    ensures WellFormed(Rebuild(s, u, draws, origins).scene)
  {
    if s.leader.Some? {
      DeletePreservesWellFormed(s);
      var d := Delete(s);
      BuildPreservesWellFormed(d, u.population, d.leader.value.shape, draws, origins);
    }
  }
}
