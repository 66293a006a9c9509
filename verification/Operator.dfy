/** The MongoDB operator as a step system over one MongoDB object: the worker that runs
    runMongoDB/create/halt, the health checker that writes the same status, whoever restores data
    or watches replicas, and users who edit the spec.

    Every API write is one step. The worker starts from any version the cache may hold. Status
    writes are atomic changes of the stored status; the worker's own copy does not follow them. */
module Operator {
  import opened Common
  import opened Conditions

  const PROVISIONING_STARTED: Kind := 1
  const PROVISIONED: Kind := 2
  const REPLICA_READY: Kind := 3
  const ACCEPTING_CONNECTION: Kind := 4
  const READY: Kind := 5
  const PAUSED: Kind := 6
  const HALTED: Kind := 7
  const DATA_RESTORED: Kind := 8

  const BY_OPERATOR := Coded(0)

  /** What PhaseFromCondition yields; no statement here depends on which phases there are. */
  type Phase = nat

  datatype Spec = Spec(
    halted: bool,
    mayHalt: bool,           // spec.terminationPolicy is Halt
    shards: nat,             // spec.shardTopology.shard.shards
    waitForRestore: bool,    // spec.init.waitForInitialRestore
    hasInit: bool,
    initialized: bool,
    keyFileRequired: bool,
    authSecret: bool,        // spec.authSecret is set
    keyFileSecret: bool)

  /** One stored version of the object. The generation counts the changes of the spec. */
  datatype Version = Version(finalizer: bool, generation: nat, spec: Spec, phase: Phase, conditions: seq<Condition>)

  /** StatefulSets of the object. */
  datatype Node = ConfigNode | ShardNode(index: nat) | MongosNode | SingleNode

  /* ---------- the worker ---------- */

  // runMongoDB and halt
  datatype TopPc = Finalize | Decide | HaltDelete | HaltStatus
  // create, up to the StatefulSets
  datatype SetupPc = Services | Auth | KeyFile | Certificates
  // ensureTopologyCluster or ensureNonTopology
  datatype NodesPc = Config | Shard(index: nat) | Gate | Mongos | Single
  // create, after the StatefulSets
  datatype AfterPc = AppBinding | Monitoring | WriteProvisioned | Users | Initialize

  datatype Pc = Idle | Top(top: TopPc) | Setup(setup: SetupPc) | Nodes(nodes: NodesPc) | After(after: AfterPc)

  /** The worker's copy of the object, the version it stems from, and whether every StatefulSet
      ensured so far was ready. */
  datatype Worker = Worker(pc: Pc, obj: Version, base: nat, allReady: bool)

  /** The health checker of this object: between rounds, or after writing AcceptingConnection. */
  datatype Health = Resting | Accepted(generation: nat)

  datatype Note =
    /** create was called on this copy of the object. */
    | Creating(snapshot: Version)
    | Ensured(node: Node, created: bool, ready: bool)
    | ProvisionedWritten(snapshot: Version, first: bool)
    | InitializedFlipped(snapshot: Version)

  datatype State = State(
    sharded: bool,
    hist: seq<Version>,
    nodes: set<Node>,
    worker: Worker,
    health: Health,
    log: seq<Note>)

  /* ---------- replies and events ---------- */

  datatype Reply =
    | Read(version: nat)
    | Ok
    | Fail
    | PhaseIs(phase: Phase)
    /** CreateOrPatch of a StatefulSet: whether it changed anything, and the state it returned. */
    | Returned(changed: bool, ready: bool)
    /** The StatefulSet went through, its disruption budget did not. */
    | Unprotected
    /** haltDatabase failed after these were gone. */
    | Partly(gone: set<Node>)

  datatype Event =
    | Act(reply: Reply)
    | Crash
    /** The health checker found this version unreachable. */
    | HealthFailed(version: nat)
    /** All clients connected. */
    | HealthConnected(version: nat)
    /** All pings succeeded as well. */
    | HealthPinged
    /** The round ended early, or the process died. */
    | HealthStopped
    /** Restore controllers, replica watchers, pause requests. */
    | Outside(condition: Condition)
    | OutsideRemoved(kind: Kind)
    | Edit(spec: Spec)
    | NodeGone(node: Node)

  predicate OwnedByOperator(kind: Kind) {
    kind == PROVISIONING_STARTED || kind == PROVISIONED || kind == ACCEPTING_CONNECTION || kind == READY || kind == HALTED
  }

  /* ---------- writes ---------- */

  function Current(s: State): Version
    requires s.hist != []
  {
    Last(s.hist)
  }

  function Append(s: State, v: Version): State
    requires s.hist != []
  {
    if v == Current(s) then s else s.(hist := s.hist + [v])
  }

  /** UpdateMongoDBStatus, the condition list given. */
  function WriteConditions(s: State, cs: seq<Condition>): State
    requires s.hist != []
  {
    Append(s, Current(s).(conditions := cs))
  }

  function WritePhase(s: State, p: Phase): State
    requires s.hist != []
  {
    Append(s, Current(s).(phase := p))
  }

  /** A change of the spec makes a new generation. */
  function WriteSpec(s: State, spec: Spec): State
    requires s.hist != []
  {
    if spec == Current(s).spec then s
    else Append(s, Current(s).(spec := spec, generation := Current(s).generation + 1))
  }

  /** AcceptingConnection and Ready both false, as a health failure and a halt write them. */
  function BothFalse(cs: seq<Condition>, generation: int): seq<Condition> {
    SetCondition(SetCondition(cs, Condition(ACCEPTING_CONNECTION, StatusFalse, generation, BY_OPERATOR)),
                 Condition(READY, StatusFalse, generation, BY_OPERATOR))
  }

  function HaltedConditions(cs: seq<Condition>, generation: int): seq<Condition> {
    BothFalse(SetCondition(cs, Condition(HALTED, StatusTrue, generation, BY_OPERATOR)), generation)
  }

  /* ---------- the worker's steps ---------- */

  function At(s: State, pc: Pc): State {
    s.(worker := s.worker.(pc := pc))
  }

  function Noted(s: State, note: Note): State {
    s.(log := s.log + [note])
  }

  predicate IsProvisioned(v: Version) {
    IsConditionTrue(v.conditions, PROVISIONED)
  }

  /** The three conditions a database has to show before it counts as provisioned. */
  predicate ShowsReady(v: Version) {
    && IsConditionTrue(v.conditions, REPLICA_READY)
    && IsConditionTrue(v.conditions, ACCEPTING_CONNECTION)
    && IsConditionTrue(v.conditions, READY)
  }

  predicate WaitsForRestore(v: Version) {
    v.spec.waitForRestore && !HasCondition(v.conditions, PROVISIONED) && !IsConditionTrue(v.conditions, DATA_RESTORED)
  }

  function Begin(s: State, reply: Reply): State
    requires s.hist != []
  {
    if reply.Read? && reply.version < |s.hist| then
      s.(worker := Worker(Top(Finalize), s.hist[reply.version], reply.version, true))
    else s
  }

  /** runMongoDB: every status write is followed by a return. */
  function TopStep(s: State, reply: Reply): State
    requires s.hist != []
  {
    var w := s.worker;
    if w.pc == Top(Finalize) && w.obj.finalizer then At(s, Top(Decide))
    else if w.pc == Top(Finalize) && reply == Ok then
      var s1 := Append(s, Current(s).(finalizer := true));
      s1.(worker := w.(pc := Top(Decide), obj := Current(s1), base := |s1.hist| - 1))
    else if w.pc == Top(Decide) && reply.PhaseIs? then DecideStep(s, reply.phase)
    else if w.pc == Top(HaltDelete) && reply == Ok then At(s.(nodes := {}), Top(HaltStatus))
    else if w.pc == Top(HaltDelete) && reply.Partly? then At(s.(nodes := s.nodes - reply.gone), Idle)
    else if w.pc == Top(HaltStatus) && reply == Ok then
      At(WriteConditions(s, HaltedConditions(Current(s).conditions, w.obj.generation)), Idle)
    else At(s, Idle)
  }

  function DecideStep(s: State, phase: Phase): State
    requires s.hist != []
  {
    var v := s.worker.obj;
    if v.phase != phase then At(WritePhase(s, phase), Idle)
    else if v.conditions == [] then
      At(WriteConditions(s, SetCondition(Current(s).conditions, Condition(PROVISIONING_STARTED, StatusTrue, 0, BY_OPERATOR))), Idle)
    else if IsConditionTrue(v.conditions, PAUSED) then At(s, Idle)
    else HaltOrCreate(s)
  }

  function HaltOrCreate(s: State): State
    requires s.hist != []
  {
    var v := s.worker.obj;
    if v.spec.halted then At(s, if v.spec.mayHalt then Top(HaltDelete) else Idle)
    else if HasCondition(v.conditions, HALTED) then
      At(WriteConditions(s, RemoveCondition(Current(s).conditions, HALTED)), Idle)
    else At(Noted(s, Creating(v)), Setup(Services))
  }

  function FirstNode(s: State): Pc {
    Nodes(if s.sharded then Config else Single)
  }

  /** ensureAuthSecret: the reference is patched into the spec and into the worker's copy. */
  function AuthStep(s: State): State
    requires s.hist != []
  {
    var obj := s.worker.obj;
    WriteSpec(s, Current(s).spec.(authSecret := true))
      .(worker := s.worker.(pc := Setup(KeyFile), obj := obj.(spec := obj.spec.(authSecret := true))))
  }

  function KeyFileStep(s: State): State
    requires s.hist != []
  {
    var obj := s.worker.obj;
    WriteSpec(s, Current(s).spec.(keyFileSecret := true))
      .(worker := s.worker.(pc := Setup(Certificates), obj := obj.(spec := obj.spec.(keyFileSecret := true))))
  }

  /** create, before the StatefulSets. */
  function SetupStep(s: State, reply: Reply): State
    requires s.hist != []
  {
    var w := s.worker;
    if w.pc == Setup(Services) && reply == Ok then At(s, Setup(Auth))
    else if w.pc == Setup(Auth) && w.obj.spec.authSecret then At(s, Setup(KeyFile))
    else if w.pc == Setup(Auth) && reply == Ok then AuthStep(s)
    else if w.pc == Setup(KeyFile) && (!w.obj.spec.keyFileRequired || (reply == Ok && w.obj.spec.keyFileSecret)) then
      At(s, Setup(Certificates))
    else if w.pc == Setup(KeyFile) && reply == Ok then KeyFileStep(s)
    else if w.pc == Setup(Certificates) && reply == Ok then At(s, FirstNode(s))
    else At(s, Idle)
  }

  function Shards(from: nat, shards: nat): NodesPc {
    if from < shards then Shard(from) else Gate
  }

  function NodeAt(pc: NodesPc): Node {
    match pc
    case Shard(i) => ShardNode(i)
    case Mongos => MongosNode
    case Single => SingleNode
    case _ => ConfigNode
  }

  /** A StatefulSet that was missing is created; whether it is ready is what the call returned. */
  function EnsureNode(s: State, node: Node, ready: bool, pc: Pc): State {
    s.(nodes := s.nodes + {node},
       worker := s.worker.(pc := pc, allReady := s.worker.allReady && ready),
       log := s.log + [Ensured(node, node !in s.nodes, ready)])
  }

  /** Config servers and shards first; mongos only when all of them were ready, or the database
      counts as provisioned already. */
  function NodesStep(s: State, reply: Reply): State {
    var w := s.worker;
    if w.pc == Nodes(Gate) then At(s, if IsProvisioned(w.obj) || w.allReady then Nodes(Mongos) else Idle)
    else if w.pc.Nodes? && reply.Returned? then
      var next :=
        if w.pc.nodes == Config then Nodes(Shards(0, w.obj.spec.shards))
        else if w.pc.nodes.Shard? then Nodes(Shards(w.pc.nodes.index + 1, w.obj.spec.shards))
        else if (reply.changed || NodeAt(w.pc.nodes) !in s.nodes) && !reply.ready then Idle
        else After(AppBinding);
      EnsureNode(s, NodeAt(w.pc.nodes), reply.ready, next)
    else if w.pc.Nodes? && reply == Unprotected then EnsureNode(s, NodeAt(w.pc.nodes), false, Idle)
    else At(s, Idle)
  }

  /** create, after the StatefulSets. */
  function AfterStep(s: State, reply: Reply): State
    requires s.hist != []
  {
    var w := s.worker;
    if w.pc == After(AppBinding) && reply == Ok then At(s, if WaitsForRestore(w.obj) then Idle else After(Monitoring))
    else if w.pc == After(Monitoring) && reply == Ok then At(s, After(WriteProvisioned))
    else if w.pc == After(WriteProvisioned) && !(ShowsReady(w.obj) && !IsProvisioned(w.obj)) then At(s, After(Users))
    else if w.pc == After(WriteProvisioned) && reply == Ok then
      ProvisionedStep(s, SetCondition(Current(s).conditions, Condition(PROVISIONED, StatusTrue, w.obj.generation, BY_OPERATOR)))
    else if w.pc == After(Users) && reply == Ok then At(s, After(Initialize))
    else if w.pc == After(Initialize) && reply == Ok && w.obj.spec.hasInit && !w.obj.spec.initialized && IsProvisioned(w.obj) then
      InitializeStep(s)
    else At(s, Idle)
  }

  function ProvisionedStep(s: State, cs: seq<Condition>): State
    requires s.hist != []
  {
    At(Noted(WriteConditions(s, cs), ProvisionedWritten(s.worker.obj, !HasCondition(Current(s).conditions, PROVISIONED))),
       After(Users))
  }

  /** A spec.init that is gone by now is dereferenced: the process ends. */
  function InitializeStep(s: State): State
    requires s.hist != []
  {
    if !Current(s).spec.hasInit then At(s, Idle)
    else At(Noted(WriteSpec(s, Current(s).spec.(initialized := true)), InitializedFlipped(s.worker.obj)), Idle)
  }

  function Step(s: State, reply: Reply): State
    requires s.hist != []
  {
    match s.worker.pc
    case Idle => Begin(s, reply)
    case Top(_) => TopStep(s, reply)
    case Setup(_) => SetupStep(s, reply)
    case Nodes(_) => NodesStep(s, reply)
    case After(_) => AfterStep(s, reply)
  }

  /* ---------- everybody else ---------- */

  /** The health checker skips halted databases; one round at a time. */
  predicate Checkable(s: State, version: nat) {
    version < |s.hist| && !s.hist[version].spec.halted && s.health == Resting
  }

  function HealthStep(s: State, e: Event): State
    requires s.hist != []
  {
    var now := Current(s).conditions;
    match e
    case HealthFailed(i) =>
      if Checkable(s, i) then WriteConditions(s, BothFalse(now, s.hist[i].generation)) else s
    case HealthConnected(i) =>
      if Checkable(s, i) then
        WriteConditions(s, SetCondition(now, Condition(ACCEPTING_CONNECTION, StatusTrue, s.hist[i].generation, BY_OPERATOR)))
          .(health := Accepted(s.hist[i].generation))
      else s
    case HealthPinged =>
      if s.health.Accepted? then
        WriteConditions(s, SetCondition(now, Condition(READY, StatusTrue, s.health.generation, BY_OPERATOR))).(health := Resting)
      else s
    case _ => s.(health := Resting)
  }

  function OutsideStep(s: State, e: Event): State
    requires s.hist != []
  {
    var now := Current(s).conditions;
    match e
    case Outside(c) => if OwnedByOperator(c.kind) then s else WriteConditions(s, SetCondition(now, c))
    case OutsideRemoved(kind) => if OwnedByOperator(kind) then s else WriteConditions(s, RemoveCondition(now, kind))
    case Edit(spec) => WriteSpec(s, spec)
    case NodeGone(node) => s.(nodes := s.nodes - {node})
    case _ => s
  }

  function Apply(s: State, e: Event): State {
    if s.hist == [] then s
    else match e
      case Act(reply) => Step(s, reply)
      case Crash => At(s, Idle)
      case HealthFailed(_) => HealthStep(s, e)
      case HealthConnected(_) => HealthStep(s, e)
      case HealthPinged => HealthStep(s, e)
      case HealthStopped => HealthStep(s, e)
      case _ => OutsideStep(s, e)
  }

  function Run(s: State, events: seq<Event>): State {
    if events == [] then s else Apply(Run(s, Front(events)), Last(events))
  }

  lemma {:induction false} RunConcat(s: State, a: seq<Event>, b: seq<Event>)
    ensures Run(s, a + b) == Run(Run(s, a), b)
  {
    hide Apply;
    if b == [] {
      assert a + b == a;
    } else {
      RunConcat(s, a, Front(b));
      assert Front(a + b) == a + Front(b) && Last(a + b) == Last(b);
    }
  }

  lemma RunOne(s: State, a: seq<Event>, e: Event)
    ensures Run(s, a + [e]) == Apply(Run(s, a), e)
  {
    hide Apply;
    assert Front(a + [e]) == a && Last(a + [e]) == e;
  }

  /** A freshly created object: no status, no StatefulSets of its own. */
  function Start(sharded: bool, spec: Spec): State {
    var v := Version(false, 1, spec, 0, []);
    State(sharded, [v], {}, Worker(Idle, v, 0, true), Resting, [])
  }
}
