/** Left alone with a fixed spec, the operator comes to rest. Every write of the worker lowers a
    measure, although almost every status write can make the stored phase wrong again and costs
    another run; so the number of runs that change anything is bounded, and what is reached then
    is a fixpoint. Nothing is assumed about which calls succeed, only that each keeps going the
    same way. */
module OperatorConvergence {
  import opened Conditions
  import opened Operator
  import opened OperatorSafety

  /** How the frozen environment answers at each place in the code. */
  type Answers = Pc -> Reply

  function Answer(phaseOf: seq<Condition> -> Phase, answers: Answers, s: State): Reply
    requires s.hist != []
  {
    if s.worker.pc == Idle then Read(|s.hist| - 1)
    else if s.worker.pc == Top(Decide) then PhaseIs(phaseOf(s.worker.obj.conditions))
    else answers(s.worker.pc)
  }

  /* ---------- the measure ---------- */

  /** The StatefulSets a topology calls for. */
  function Target(sharded: bool, shards: nat): set<Node> {
    if sharded then {ConfigNode, MongosNode} + set k: nat | k < shards :: ShardNode(k) else {SingleNode}
  }

  function Weight(pending: bool, weight: nat): nat {
    if pending then weight else 0
  }

  /** Halted, but the status does not say so; or not halted, but it still does. */
  predicate HaltPending(v: Version) {
    if v.spec.halted then HaltedConditions(v.conditions, v.generation) != v.conditions
    else HasCondition(v.conditions, HALTED)
  }

  /** Most significant first; the phase mismatch, which other writes bring back, comes last. */
  function Pending(phaseOf: seq<Condition> -> Phase, v: Version): nat {
    Weight(!v.finalizer, 128)
    + Weight(HaltPending(v), 64)
    + Weight(v.conditions == [], 32)
    + Weight(!v.spec.authSecret, 16)
    + Weight(!v.spec.keyFileSecret, 8)
    + Weight(ShowsReady(v) && !IsProvisioned(v), 4)
    + Weight(!v.spec.initialized, 2)
    + Weight(v.phase != phaseOf(v.conditions), 1)
  }

  /** StatefulSets still to delete, or still to create. */
  function Misplaced(sharded: bool, spec: Spec, nodes: set<Node>): nat {
    if spec.halted then |nodes| else |Target(sharded, spec.shards) - nodes|
  }

  function Measure(phaseOf: seq<Condition> -> Phase, s: State): nat
    requires s.hist != []
  {
    Pending(phaseOf, Current(s)) + Misplaced(s.sharded, Current(s).spec, s.nodes)
  }

  /* ---------- what the worker knows when nobody else writes ---------- */

  ghost predicate SameConcerns(v: Version, w: Version) {
    v.spec == w.spec && v.conditions == w.conditions
  }

  ghost predicate Alone(s: State) {
    && s.hist != [] && UniqueKinds(Current(s).conditions)
    && var w := s.worker;
       var now := Current(s);
       match w.pc
       case Idle => true
       case Top(pc) => w.obj == now && (pc == HaltDelete || pc == HaltStatus ==> now.spec.halted)
       case Setup(_) => SameConcerns(w.obj, now) && !now.spec.halted
       case Nodes(pc) =>
         SameConcerns(w.obj, now) && !now.spec.halted && (pc.Single? <==> !s.sharded) && (pc.Shard? ==> pc.index < now.spec.shards)
       case After(pc) => w.obj.spec == now.spec && !now.spec.halted && (pc == Users || pc == Initialize || w.obj.conditions == now.conditions)
  }

  /** Nothing stored has changed, or the measure went down. */
  ghost predicate Calmer(phaseOf: seq<Condition> -> Phase, s: State, s': State)
    requires s.hist != []
  {
    && s'.hist != []
    && ((s'.hist == s.hist && s'.nodes == s.nodes) || Measure(phaseOf, s') < Measure(phaseOf, s))
  }

  ghost predicate Progress(phaseOf: seq<Condition> -> Phase, s: State, s': State)
    requires s.hist != []
  {
    Alone(s') && s'.sharded == s.sharded && Calmer(phaseOf, s, s')
  }

  /* ---------- writes lower the measure ---------- */

  lemma HaltedTwice(cs: seq<Condition>, generation: int)
    requires UniqueKinds(cs)
    ensures UniqueKinds(HaltedConditions(cs, generation))
    ensures HaltedConditions(HaltedConditions(cs, generation), generation) == HaltedConditions(cs, generation)
    ensures HaltedConditions(cs, generation) != []
  {
    var h := Condition(HALTED, StatusTrue, generation, BY_OPERATOR);
    var a := Condition(ACCEPTING_CONNECTION, StatusFalse, generation, BY_OPERATOR);
    var r := Condition(READY, StatusFalse, generation, BY_OPERATOR);
    var one := SetCondition(cs, h);
    var two := SetCondition(one, a);
    var three := SetCondition(two, r);
    SetSettles(cs, h);
    SetSettles(one, a);
    SetSettles(two, r);
    OtherStaysSettled(one, a, h);
    OtherStaysSettled(two, r, h);
    OtherStaysSettled(two, r, a);
    SettledIsFixed(three, h);
    SettledIsFixed(three, a);
    SettledIsFixed(three, r);
    assert HaltedConditions(cs, generation) == three;
  }

  /** Writing the condition would change nothing. */
  ghost predicate Settled(cs: seq<Condition>, c: Condition) {
    var i := GetCondition(cs, c.kind);
    i != -1 && (cs[i] == c || c.observedGeneration < cs[i].observedGeneration)
  }

  lemma SetSettles(cs: seq<Condition>, c: Condition)
    requires UniqueKinds(cs)
    ensures UniqueKinds(SetCondition(cs, c)) && Settled(SetCondition(cs, c), c)
  {
    SetKeepsUniqueKinds(cs, c);
    var i := GetCondition(cs, c.kind);
    if i == -1 || cs[i].observedGeneration <= c.observedGeneration {
      SetInstalls(cs, c);
    }
  }

  lemma OtherStaysSettled(cs: seq<Condition>, c: Condition, d: Condition)
    requires c.kind != d.kind && Settled(cs, d)
    ensures Settled(SetCondition(cs, c), d)
  {
    SetFramesOtherKinds(cs, c, d.kind);
  }

  lemma SettledIsFixed(cs: seq<Condition>, c: Condition)
    requires Settled(cs, c)
    ensures SetCondition(cs, c) == cs
  {
    var i := GetCondition(cs, c.kind);
    assert cs[i := cs[i]] == cs;
  }

  lemma SetMakesNonempty(cs: seq<Condition>, c: Condition)
    ensures SetCondition(cs, c) != []
  {
  }

  /** A write that settles one of the concerns and reopens at most less weighty ones. */
  lemma VersionLowers(phaseOf: seq<Condition> -> Phase, s: State, s': State, v: Version)
    requires s.hist != [] && s' == Append(s, v).(worker := s'.worker, log := s'.log)
    requires v.spec.halted == Current(s).spec.halted && v.spec.shards == Current(s).spec.shards
    requires v == Current(s) || Pending(phaseOf, v) < Pending(phaseOf, Current(s))
    ensures Calmer(phaseOf, s, s')
  {
    hide Pending;
  }

  lemma FinalizerLowers(phaseOf: seq<Condition> -> Phase, v: Version)
    ensures !v.finalizer ==> Pending(phaseOf, v.(finalizer := true)) < Pending(phaseOf, v)
  {
    hide HaltedConditions, HasCondition, IsConditionTrue;
  }

  lemma PhaseLowers(phaseOf: seq<Condition> -> Phase, v: Version)
    ensures var p := phaseOf(v.conditions); v.phase != p ==> Pending(phaseOf, v.(phase := p)) < Pending(phaseOf, v)
  {
    hide HaltedConditions, HasCondition, IsConditionTrue;
  }

  lemma StartedLowers(phaseOf: seq<Condition> -> Phase, v: Version)
    requires v.conditions == []
    ensures var cs := SetCondition(v.conditions, Condition(PROVISIONING_STARTED, StatusTrue, 0, BY_OPERATOR));
            UniqueKinds(cs) && Pending(phaseOf, v.(conditions := cs)) < Pending(phaseOf, v)
  {
    var c := Condition(PROVISIONING_STARTED, StatusTrue, 0, BY_OPERATOR);
    var cs := SetCondition([], c);
    assert cs == [c];
    assert !HasCondition(cs, HALTED) && !IsConditionTrue(cs, READY);
    HaltedTwice([], v.generation);
    hide HaltedConditions, SetCondition, HasCondition, IsConditionTrue;
    assert HaltPending(v.(conditions := cs)) ==> HaltPending(v);
  }

  lemma UnhaltedLowers(phaseOf: seq<Condition> -> Phase, v: Version)
    requires !v.spec.halted && HasCondition(v.conditions, HALTED) && UniqueKinds(v.conditions)
    ensures var cs := RemoveCondition(v.conditions, HALTED);
            UniqueKinds(cs) && Pending(phaseOf, v.(conditions := cs)) < Pending(phaseOf, v)
  {
    RemoveKeepsUniqueKinds(v.conditions, HALTED);
    RemoveFramesOtherKinds(v.conditions, HALTED, PROVISIONED);
    hide RemoveCondition, HaltedConditions, HasCondition, IsConditionTrue;
  }

  lemma HaltLowers(phaseOf: seq<Condition> -> Phase, v: Version)
    requires v.spec.halted && UniqueKinds(v.conditions)
    ensures var cs := HaltedConditions(v.conditions, v.generation);
            UniqueKinds(cs) && (cs == v.conditions || Pending(phaseOf, v.(conditions := cs)) < Pending(phaseOf, v))
  {
    HaltedTwice(v.conditions, v.generation);
    hide HaltedConditions, HasCondition, IsConditionTrue;
  }

  lemma SecretsLower(phaseOf: seq<Condition> -> Phase, v: Version)
    requires !v.spec.halted
    ensures !v.spec.authSecret ==>
              Pending(phaseOf, v.(spec := v.spec.(authSecret := true), generation := v.generation + 1)) < Pending(phaseOf, v)
    ensures !v.spec.keyFileSecret ==>
              Pending(phaseOf, v.(spec := v.spec.(keyFileSecret := true), generation := v.generation + 1)) < Pending(phaseOf, v)
    ensures !v.spec.initialized ==>
              Pending(phaseOf, v.(spec := v.spec.(initialized := true), generation := v.generation + 1)) < Pending(phaseOf, v)
  {
    hide HaltedConditions, HasCondition, IsConditionTrue;
  }

  lemma ProvisionedLowers(phaseOf: seq<Condition> -> Phase, v: Version, generation: nat)
    requires !v.spec.halted && ShowsReady(v) && !IsProvisioned(v) && UniqueKinds(v.conditions)
    ensures var cs := SetCondition(v.conditions, Condition(PROVISIONED, StatusTrue, generation, BY_OPERATOR));
            UniqueKinds(cs) && (cs == v.conditions || Pending(phaseOf, v.(conditions := cs)) < Pending(phaseOf, v))
  {
    var c := Condition(PROVISIONED, StatusTrue, generation, BY_OPERATOR);
    SetSettles(v.conditions, c);
    SetFramesOtherKinds(v.conditions, c, HALTED);
    SetMakesNonempty(v.conditions, c);
    var i := GetCondition(v.conditions, PROVISIONED);
    var cs := SetCondition(v.conditions, c);
    if i == -1 || v.conditions[i].observedGeneration <= generation {
      SetInstalls(v.conditions, c);
      assert IsConditionTrue(cs, PROVISIONED);
      hide SetCondition, HasCondition, IsConditionTrue, HaltedConditions;
    }
  }

  /* ---------- steps ---------- */

  lemma FinalizeProgress(phaseOf: seq<Condition> -> Phase, s: State, reply: Reply)
    requires Alone(s) && s.worker.pc == Top(Finalize)
    ensures Progress(phaseOf, s, TopStep(s, reply))
  {
    hide Measure, UniqueKinds, Calmer;
    var now := Current(s);
    StayingIsCalm(phaseOf, s, At(s, Top(Decide)));
    StayingIsCalm(phaseOf, s, At(s, Idle));
    FinalizerLowers(phaseOf, now);
    if !now.finalizer && reply == Ok {
      VersionLowers(phaseOf, s, TopStep(s, reply), now.(finalizer := true));
    }
  }

  lemma HaltProgress(phaseOf: seq<Condition> -> Phase, s: State, reply: Reply)
    requires Alone(s) && (s.worker.pc == Top(HaltDelete) || s.worker.pc == Top(HaltStatus))
    ensures Progress(phaseOf, s, TopStep(s, reply))
  {
    hide HaltedConditions, Pending, UniqueKinds;
    var s', now := TopStep(s, reply), Current(s);
    if s.worker.pc == Top(HaltDelete) {
      DeletingLowers(s.nodes, s'.nodes);
    } else {
      HaltLowers(phaseOf, now);
      VersionLowers(phaseOf, s, WriteConditions(s, HaltedConditions(now.conditions, now.generation)),
                    now.(conditions := HaltedConditions(now.conditions, now.generation)));
    }
  }

  lemma DeletingLowers(nodes: set<Node>, left: set<Node>)
    requires left <= nodes
    ensures left == nodes || |left| < |nodes|
  {
    if left != nodes {
      var n :| n in nodes && n !in left;
      SubsetIsSmaller(left, nodes - {n});
    }
  }

  lemma {:induction false} SubsetIsSmaller(a: set<Node>, b: set<Node>)
    requires a <= b
    ensures |a| <= |b|
  {
    if a != {} {
      var n :| n in a;
      SubsetIsSmaller(a - {n}, b - {n});
    }
  }

  lemma DecideProgress(phaseOf: seq<Condition> -> Phase, s: State)
    requires Alone(s) && s.worker.pc == Top(Decide)
    ensures Progress(phaseOf, s, DecideStep(s, phaseOf(s.worker.obj.conditions)))
  {
    hide Pending, SetCondition, RemoveCondition, HasCondition, IsConditionTrue, HaltOrCreate, HaltedConditions;
    var now := Current(s);
    PhaseLowers(phaseOf, now);
    if now.phase != phaseOf(now.conditions) {
      VersionLowers(phaseOf, s, WritePhase(s, phaseOf(now.conditions)), now.(phase := phaseOf(now.conditions)));
    } else if now.conditions == [] {
      var cs := SetCondition(now.conditions, Condition(PROVISIONING_STARTED, StatusTrue, 0, BY_OPERATOR));
      StartedLowers(phaseOf, now);
      VersionLowers(phaseOf, s, WriteConditions(s, cs), now.(conditions := cs));
    } else {
      HaltOrCreateProgress(phaseOf, s);
    }
  }

  lemma HaltOrCreateProgress(phaseOf: seq<Condition> -> Phase, s: State)
    requires Alone(s) && s.worker.pc == Top(Decide)
    ensures Progress(phaseOf, s, HaltOrCreate(s))
  {
    hide Pending, RemoveCondition, HasCondition, HaltedConditions;
    var now := Current(s);
    if !now.spec.halted && HasCondition(now.conditions, HALTED) {
      var cs := RemoveCondition(now.conditions, HALTED);
      UnhaltedLowers(phaseOf, now);
      VersionLowers(phaseOf, s, WriteConditions(s, cs), now.(conditions := cs));
    }
  }

  lemma SpecWriteLowers(phaseOf: seq<Condition> -> Phase, s: State, s': State, spec: Spec)
    requires s.hist != [] && s' == WriteSpec(s, spec).(worker := s'.worker, log := s'.log)
    requires spec.halted == Current(s).spec.halted && spec.shards == Current(s).spec.shards
    requires spec != Current(s).spec ==>
               Pending(phaseOf, Current(s).(spec := spec, generation := Current(s).generation + 1)) < Pending(phaseOf, Current(s))
    ensures Calmer(phaseOf, s, s')
    ensures s'.hist != [] && Current(s').spec == spec && Current(s').conditions == Current(s).conditions
  {
    hide Pending;
    if spec != Current(s).spec {
      VersionLowers(phaseOf, s, s', Current(s).(spec := spec, generation := Current(s).generation + 1));
    }
  }

  lemma SetupProgress(phaseOf: seq<Condition> -> Phase, s: State, reply: Reply)
    requires Alone(s) && s.worker.pc.Setup?
    ensures Progress(phaseOf, s, SetupStep(s, reply))
  {
    hide AuthStep, KeyFileStep, Progress;
    SetupMoveProgress(phaseOf, s, Idle);
    match s.worker.pc.setup {
      case Services => SetupMoveProgress(phaseOf, s, Setup(Auth));
      case Auth =>
        SetupMoveProgress(phaseOf, s, Setup(KeyFile));
        AuthProgress(phaseOf, s);
      case KeyFile =>
        SetupMoveProgress(phaseOf, s, Setup(Certificates));
        KeyFileProgress(phaseOf, s);
      case Certificates => SetupMoveProgress(phaseOf, s, FirstNode(s));
    }
  }

  lemma SetupMoveProgress(phaseOf: seq<Condition> -> Phase, s: State, pc: Pc)
    requires Alone(s) && s.worker.pc.Setup?
    requires pc == Idle || pc.Setup? || pc == FirstNode(s)
    ensures Progress(phaseOf, s, At(s, pc))
  {
    hide Measure;
  }

  lemma AuthProgress(phaseOf: seq<Condition> -> Phase, s: State)
    requires Alone(s) && s.worker.pc.Setup?
    ensures Progress(phaseOf, s, AuthStep(s))
  {
    hide Pending;
    SecretsLower(phaseOf, Current(s));
    SpecWriteLowers(phaseOf, s, AuthStep(s), Current(s).spec.(authSecret := true));
  }

  lemma KeyFileProgress(phaseOf: seq<Condition> -> Phase, s: State)
    requires Alone(s) && s.worker.pc.Setup?
    ensures Progress(phaseOf, s, KeyFileStep(s))
  {
    hide Pending;
    SecretsLower(phaseOf, Current(s));
    SpecWriteLowers(phaseOf, s, KeyFileStep(s), Current(s).spec.(keyFileSecret := true));
  }

  lemma CreatingLowers(target: set<Node>, nodes: set<Node>, node: Node)
    requires node in target && node !in nodes
    ensures |target - (nodes + {node})| < |target - nodes|
  {
    SubsetIsSmaller(target - (nodes + {node}), target - nodes - {node});
  }

  lemma EnsuringLowers(phaseOf: seq<Condition> -> Phase, s: State, node: Node, ready: bool, pc: Pc)
    requires s.hist != [] && !Current(s).spec.halted && node in Target(s.sharded, Current(s).spec.shards)
    ensures Calmer(phaseOf, s, EnsureNode(s, node, ready, pc))
  {
    hide Pending;
    if node in s.nodes {
      assert s.nodes + {node} == s.nodes;
    } else {
      CreatingLowers(Target(s.sharded, Current(s).spec.shards), s.nodes, node);
    }
  }

  lemma NodesProgress(phaseOf: seq<Condition> -> Phase, s: State, reply: Reply)
    requires Alone(s) && s.worker.pc.Nodes?
    ensures Progress(phaseOf, s, NodesStep(s, reply))
  {
    hide Measure, IsProvisioned, UniqueKinds, Target, Calmer;
    var s' := NodesStep(s, reply);
    if s.worker.pc != Nodes(Gate) && (reply.Returned? || reply == Unprotected) {
      var node := NodeAt(s.worker.pc.nodes);
      NodeIsWanted(s);
      EnsuringLowers(phaseOf, s, node, reply.Returned? && reply.ready, s'.worker.pc);
    } else {
      StayingIsCalm(phaseOf, s, s');
    }
  }

  lemma NodeIsWanted(s: State)
    requires Alone(s) && s.worker.pc.Nodes? && s.worker.pc != Nodes(Gate)
    ensures NodeAt(s.worker.pc.nodes) in Target(s.sharded, Current(s).spec.shards)
  {
    hide UniqueKinds;
  }

  lemma StayingIsCalm(phaseOf: seq<Condition> -> Phase, s: State, s': State)
    requires s.hist != [] && s'.hist == s.hist && s'.nodes == s.nodes
    ensures Calmer(phaseOf, s, s')
  {
    hide Measure;
  }

  lemma AfterProgress(phaseOf: seq<Condition> -> Phase, s: State, reply: Reply)
    requires Alone(s) && s.worker.pc.After?
    ensures Progress(phaseOf, s, AfterStep(s, reply))
  {
    hide Pending, ProvisionedStep, InitializeStep, SetCondition, WaitsForRestore, IsConditionTrue;
    var now, w := Current(s), s.worker;
    if w.pc == After(WriteProvisioned) && ShowsReady(w.obj) && !IsProvisioned(w.obj) {
      ProvisionedProgress(phaseOf, s);
    } else if w.pc == After(Initialize) {
      InitializeProgress(phaseOf, s);
    }
  }

  lemma ProvisionedProgress(phaseOf: seq<Condition> -> Phase, s: State)
    requires Alone(s) && s.worker.pc == After(WriteProvisioned)
    requires ShowsReady(s.worker.obj) && !IsProvisioned(s.worker.obj)
    ensures Progress(phaseOf, s, ProvisionedStep(s, SetCondition(Current(s).conditions, Condition(PROVISIONED, StatusTrue, s.worker.obj.generation, BY_OPERATOR))))
  {
    hide Pending, SetCondition, IsConditionTrue, HasCondition;
    var now := Current(s);
    var cs := SetCondition(now.conditions, Condition(PROVISIONED, StatusTrue, s.worker.obj.generation, BY_OPERATOR));
    ProvisionedLowers(phaseOf, now, s.worker.obj.generation);
    VersionLowers(phaseOf, s, ProvisionedStep(s, cs), now.(conditions := cs));
  }

  lemma InitializeProgress(phaseOf: seq<Condition> -> Phase, s: State)
    requires Alone(s) && s.worker.pc == After(Initialize)
    ensures Progress(phaseOf, s, InitializeStep(s))
  {
    hide Pending;
    SecretsLower(phaseOf, Current(s));
    if Current(s).spec.hasInit {
      SpecWriteLowers(phaseOf, s, InitializeStep(s), Current(s).spec.(initialized := true));
    }
  }

  lemma StepProgress(phaseOf: seq<Condition> -> Phase, answers: Answers, s: State)
    requires Alone(s)
    ensures Progress(phaseOf, s, Step(s, Answer(phaseOf, answers, s)))
  {
    hide Progress, Measure, Begin, TopStep, SetupStep, NodesStep, AfterStep, DecideStep;
    var reply := Answer(phaseOf, answers, s);
    match s.worker.pc {
      case Idle => BeginProgress(phaseOf, s);
      case Top(Decide) =>
        DecideProgress(phaseOf, s);
        DecideIsTop(s, reply);
      case Top(Finalize) => FinalizeProgress(phaseOf, s, reply);
      case Top(_) => HaltProgress(phaseOf, s, reply);
      case Setup(_) => SetupProgress(phaseOf, s, reply);
      case Nodes(_) => NodesProgress(phaseOf, s, reply);
      case After(_) => AfterProgress(phaseOf, s, reply);
    }
  }

  lemma DecideIsTop(s: State, reply: Reply)
    requires s.hist != [] && s.worker.pc == Top(Decide) && reply.PhaseIs?
    ensures TopStep(s, reply) == DecideStep(s, reply.phase)
  {
    hide DecideStep;
  }

  lemma BeginProgress(phaseOf: seq<Condition> -> Phase, s: State)
    requires Alone(s) && s.worker.pc == Idle
    ensures Progress(phaseOf, s, Begin(s, Read(|s.hist| - 1)))
  {
  }

  /* ---------- whole runs ---------- */

  /** Steps a run can still take. */
  function Left(w: Worker): nat {
    match w.pc
    case Idle => 0
    case Top(Finalize) => w.obj.spec.shards + 20
    case Top(Decide) => w.obj.spec.shards + 19
    case Top(HaltDelete) => 2
    case Top(HaltStatus) => 1
    case Setup(Services) => w.obj.spec.shards + 18
    case Setup(Auth) => w.obj.spec.shards + 17
    case Setup(KeyFile) => w.obj.spec.shards + 16
    case Setup(Certificates) => w.obj.spec.shards + 15
    case Nodes(Config) => w.obj.spec.shards + 14
    case Nodes(Single) => 14
    case Nodes(Shard(i)) => if i < w.obj.spec.shards then w.obj.spec.shards - i + 12 else 13
    case Nodes(Gate) => 12
    case Nodes(Mongos) => 11
    case After(AppBinding) => 10
    case After(Monitoring) => 9
    case After(WriteProvisioned) => 8
    case After(Users) => 7
    case After(Initialize) => 6
  }

  lemma TopRunsOut(s: State, reply: Reply)
    requires Alone(s) && s.worker.pc.Top?
    ensures Left(TopStep(s, reply).worker) < Left(s.worker)
  {
    hide SetCondition, RemoveCondition, HaltedConditions, IsConditionTrue, HasCondition, UniqueKinds;
  }

  lemma SetupRunsOut(s: State, reply: Reply)
    requires Alone(s) && s.worker.pc.Setup?
    ensures Left(SetupStep(s, reply).worker) < Left(s.worker)
  {
    hide UniqueKinds, WriteSpec, Append;
  }

  lemma NodesRunOut(s: State, reply: Reply)
    requires Alone(s) && s.worker.pc.Nodes?
    ensures Left(NodesStep(s, reply).worker) < Left(s.worker)
  {
    hide UniqueKinds, IsProvisioned;
  }

  lemma AfterRunsOut(s: State, reply: Reply)
    requires Alone(s) && s.worker.pc.After?
    ensures Left(AfterStep(s, reply).worker) < Left(s.worker)
  {
    hide UniqueKinds, SetCondition, IsProvisioned, ShowsReady, WaitsForRestore, HasCondition;
  }

  lemma StepsRunOut(s: State, reply: Reply)
    requires Alone(s) && s.worker.pc != Idle
    ensures Left(Step(s, reply).worker) < Left(s.worker)
  {
    hide Alone, Left, TopStep, SetupStep, NodesStep, AfterStep;
    match s.worker.pc {
      case Top(_) => TopRunsOut(s, reply);
      case Setup(_) => SetupRunsOut(s, reply);
      case Nodes(_) => NodesRunOut(s, reply);
      case After(_) => AfterRunsOut(s, reply);
    }
  }

  /** The rest of a run, to the point where the worker waits for the next event. */
  ghost function Finish(phaseOf: seq<Condition> -> Phase, answers: Answers, s: State): (t: State)
    requires Alone(s)
    ensures Alone(t) && t.worker.pc == Idle
    decreases Left(s.worker)
  {
    if s.worker.pc == Idle then s
    else
      var reply := Answer(phaseOf, answers, s);
      StepProgress(phaseOf, answers, s);
      StepsRunOut(s, reply);
      Finish(phaseOf, answers, Step(s, reply))
  }

  /** One run of runMongoDB on the current version. */
  ghost function OneRun(phaseOf: seq<Condition> -> Phase, answers: Answers, s: State): (t: State)
    requires Alone(s) && s.worker.pc == Idle
    ensures Alone(t) && t.worker.pc == Idle
  {
    StepProgress(phaseOf, answers, s);
    Finish(phaseOf, answers, Step(s, Answer(phaseOf, answers, s)))
  }

  lemma {:induction false} FinishCalms(phaseOf: seq<Condition> -> Phase, answers: Answers, s: State)
    requires Alone(s)
    ensures Progress(phaseOf, s, Finish(phaseOf, answers, s))
    decreases Left(s.worker)
  {
    if s.worker.pc != Idle {
      hide Alone, Measure, Step;
      var reply := Answer(phaseOf, answers, s);
      StepProgress(phaseOf, answers, s);
      StepsRunOut(s, reply);
      FinishCalms(phaseOf, answers, Step(s, reply));
    }
  }

  /** A run that changes anything stored lowers the measure. */
  lemma RunLowersMeasure(phaseOf: seq<Condition> -> Phase, answers: Answers, s: State)
    requires Alone(s) && s.worker.pc == Idle
    ensures Progress(phaseOf, s, OneRun(phaseOf, answers, s))
  {
    StepProgress(phaseOf, answers, s);
    hide Alone, Measure, Step;
    FinishCalms(phaseOf, answers, Step(s, Answer(phaseOf, answers, s)));
  }

  ghost function Runs(phaseOf: seq<Condition> -> Phase, answers: Answers, s: State, n: nat): (t: State)
    requires Alone(s) && s.worker.pc == Idle
    ensures Alone(t) && t.worker.pc == Idle
  {
    if n == 0 then s else OneRun(phaseOf, answers, Runs(phaseOf, answers, s, n - 1))
  }

  /* ---------- nothing but the stored state decides ---------- */

  ghost predicate Twins(s: State, t: State) {
    t.sharded == s.sharded && t.hist == s.hist && t.nodes == s.nodes && t.worker == s.worker
  }

  lemma MoveTwins(s: State, t: State, pc: Pc)
    requires Twins(s, t)
    ensures Twins(At(s, pc), At(t, pc))
  {
  }

  lemma ConditionTwins(s: State, t: State, cs: seq<Condition>, pc: Pc)
    requires Twins(s, t) && s.hist != []
    ensures Twins(At(WriteConditions(s, cs), pc), At(WriteConditions(t, cs), pc))
  {
  }

  lemma SpecTwins(s: State, t: State, spec: Spec, w: Worker)
    requires Twins(s, t) && s.hist != []
    ensures Twins(WriteSpec(s, spec).(worker := w), WriteSpec(t, spec).(worker := w))
  {
  }

  lemma FinalizeTwins(s: State, t: State, reply: Reply)
    requires Twins(s, t) && s.hist != [] && s.worker.pc == Top(Finalize)
    ensures Twins(TopStep(s, reply), TopStep(t, reply))
  {
  }

  lemma DecideTwins(s: State, t: State, phase: Phase)
    requires Twins(s, t) && s.hist != []
    ensures Twins(DecideStep(s, phase), DecideStep(t, phase))
  {
    hide SetCondition, RemoveCondition, IsConditionTrue, HasCondition, WriteConditions, HaltOrCreate;
    ConditionTwins(s, t, SetCondition(Current(s).conditions, Condition(PROVISIONING_STARTED, StatusTrue, 0, BY_OPERATOR)), Idle);
    HaltOrCreateTwins(s, t);
  }

  lemma HaltOrCreateTwins(s: State, t: State)
    requires Twins(s, t) && s.hist != []
    ensures Twins(HaltOrCreate(s), HaltOrCreate(t))
  {
    hide RemoveCondition, HasCondition, WriteConditions;
    ConditionTwins(s, t, RemoveCondition(Current(s).conditions, HALTED), Idle);
  }

  lemma TopTwins(s: State, t: State, reply: Reply)
    requires Twins(s, t) && s.hist != [] && s.worker.pc.Top?
    ensures Twins(TopStep(s, reply), TopStep(t, reply))
  {
    hide HaltedConditions, WriteConditions, DecideStep;
    match s.worker.pc.top {
      case Finalize => FinalizeTwins(s, t, reply);
      case Decide =>
        if reply.PhaseIs? {
          DecideTwins(s, t, reply.phase);
        }
      case HaltDelete =>
      case HaltStatus => ConditionTwins(s, t, HaltedConditions(Current(s).conditions, s.worker.obj.generation), Idle);
    }
  }

  lemma SetupTwins(s: State, t: State, reply: Reply)
    requires Twins(s, t) && s.hist != [] && s.worker.pc.Setup?
    ensures Twins(SetupStep(s, reply), SetupStep(t, reply))
  {
    hide WriteSpec, At;
    MoveTwins(s, t, Idle);
    match s.worker.pc.setup {
      case Services => MoveTwins(s, t, Setup(Auth));
      case Auth =>
        MoveTwins(s, t, Setup(KeyFile));
        SpecTwins(s, t, Current(s).spec.(authSecret := true), AuthStep(s).worker);
      case KeyFile =>
        MoveTwins(s, t, Setup(Certificates));
        SpecTwins(s, t, Current(s).spec.(keyFileSecret := true), KeyFileStep(s).worker);
      case Certificates => MoveTwins(s, t, FirstNode(s));
    }
  }

  lemma NodesTwins(s: State, t: State, reply: Reply)
    requires Twins(s, t) && s.hist != []
    ensures Twins(NodesStep(s, reply), NodesStep(t, reply))
  {
    hide IsProvisioned;
  }

  lemma ProvisionedTwins(s: State, t: State, cs: seq<Condition>)
    requires Twins(s, t) && s.hist != []
    ensures Twins(ProvisionedStep(s, cs), ProvisionedStep(t, cs))
  {
    hide HasCondition;
    ConditionTwins(s, t, cs, Idle);
  }

  lemma InitializeTwins(s: State, t: State)
    requires Twins(s, t) && s.hist != []
    ensures Twins(InitializeStep(s), InitializeStep(t))
  {
  }

  lemma AfterTwins(s: State, t: State, reply: Reply)
    requires Twins(s, t) && s.hist != []
    ensures Twins(AfterStep(s, reply), AfterStep(t, reply))
  {
    hide SetCondition, IsProvisioned, ShowsReady, WaitsForRestore, ProvisionedStep, InitializeStep;
    ProvisionedTwins(s, t, SetCondition(Current(s).conditions, Condition(PROVISIONED, StatusTrue, s.worker.obj.generation, BY_OPERATOR)));
    InitializeTwins(s, t);
  }

  lemma StepTwins(s: State, t: State, reply: Reply)
    requires Twins(s, t) && s.hist != []
    ensures Twins(Step(s, reply), Step(t, reply))
  {
    hide TopStep, SetupStep, NodesStep, AfterStep;
    match s.worker.pc {
      case Idle =>
      case Top(_) => TopTwins(s, t, reply);
      case Setup(_) => SetupTwins(s, t, reply);
      case Nodes(_) => NodesTwins(s, t, reply);
      case After(_) => AfterTwins(s, t, reply);
    }
  }

  lemma {:induction false} FinishTwins(phaseOf: seq<Condition> -> Phase, answers: Answers, s: State, t: State)
    requires Alone(s) && Alone(t) && Twins(s, t)
    ensures Twins(Finish(phaseOf, answers, s), Finish(phaseOf, answers, t))
    decreases Left(s.worker)
  {
    if s.worker.pc != Idle {
      var reply := Answer(phaseOf, answers, s);
      assert reply == Answer(phaseOf, answers, t);
      StepProgress(phaseOf, answers, s);
      StepProgress(phaseOf, answers, t);
      hide Alone, Measure, Step;
      StepsRunOut(s, reply);
      StepTwins(s, t, reply);
      FinishTwins(phaseOf, answers, Step(s, reply), Step(t, reply));
    }
  }

  /** The same stored object and StatefulSets. */
  ghost predicate SameStored(s: State, t: State) {
    t.sharded == s.sharded && t.hist == s.hist && t.nodes == s.nodes
  }

  lemma SameStoredSameRun(phaseOf: seq<Condition> -> Phase, answers: Answers, s: State, t: State)
    requires Alone(s) && Alone(t) && s.worker.pc == Idle && t.worker.pc == Idle
    requires SameStored(s, t)
    ensures SameStored(OneRun(phaseOf, answers, s), OneRun(phaseOf, answers, t))
  {
    var reply := Answer(phaseOf, answers, s);
    StepProgress(phaseOf, answers, s);
    StepProgress(phaseOf, answers, t);
    assert Twins(Step(s, reply), Step(t, reply));
    hide Alone, Measure, Step;
    FinishTwins(phaseOf, answers, Step(s, reply), Step(t, reply));
  }

  /* ---------- coming to rest ---------- */

  lemma NextRun(phaseOf: seq<Condition> -> Phase, answers: Answers, s: State, n: nat)
    requires Alone(s) && s.worker.pc == Idle
    ensures var t, u := Runs(phaseOf, answers, s, n), Runs(phaseOf, answers, s, n + 1);
            && t.hist != [] && u.hist != []
            && (SameStored(t, u) || Measure(phaseOf, u) < Measure(phaseOf, t))
  {
    var t := Runs(phaseOf, answers, s, n);
    RunLowersMeasure(phaseOf, answers, t);
    hide Alone, Measure, OneRun;
  }

  /** Once a run has changed nothing, the next one changes nothing either. */
  lemma RestIsFixed(phaseOf: seq<Condition> -> Phase, answers: Answers, s: State, n: nat)
    requires Alone(s) && s.worker.pc == Idle
    requires SameStored(Runs(phaseOf, answers, s, n), Runs(phaseOf, answers, s, n + 1))
    ensures SameStored(Runs(phaseOf, answers, s, n + 1), Runs(phaseOf, answers, s, n + 2))
  {
    SameStoredSameRun(phaseOf, answers, Runs(phaseOf, answers, s, n), Runs(phaseOf, answers, s, n + 1));
    hide Alone, OneRun;
  }

  lemma NoRun(phaseOf: seq<Condition> -> Phase, answers: Answers, s: State)
    requires Alone(s) && s.worker.pc == Idle
    ensures Runs(phaseOf, answers, s, 0) == s
  {
    hide OneRun;
  }

  /** After n runs either each of them has brought the measure down, or rest is reached. */
  lemma {:induction false} RunsRestOrLower(phaseOf: seq<Condition> -> Phase, answers: Answers, s: State, n: nat, m: nat, t: State, u: State)
    requires Alone(s) && s.worker.pc == Idle && Measure(phaseOf, s) <= m
    requires t == Runs(phaseOf, answers, s, n) && u == Runs(phaseOf, answers, s, n + 1)
    ensures t.hist != [] && (SameStored(t, u) || Measure(phaseOf, t) + n <= m)
  {
    hide *;
    NoRun(phaseOf, answers, s);
    NextRun(phaseOf, answers, s, n);
    if n > 0 {
      var before := Runs(phaseOf, answers, s, n - 1);
      RunsRestOrLower(phaseOf, answers, s, n - 1, m, before, t);
      NextRun(phaseOf, answers, s, n - 1);
      if SameStored(before, t) {
        RestIsFixed(phaseOf, answers, s, n - 1);
      }
    }
  }

  lemma {:induction false} RestingStaysAtRest(phaseOf: seq<Condition> -> Phase, answers: Answers, s: State, n: nat, k: nat)
    requires Alone(s) && s.worker.pc == Idle
    requires SameStored(Runs(phaseOf, answers, s, n), Runs(phaseOf, answers, s, n + 1))
    ensures SameStored(Runs(phaseOf, answers, s, n), Runs(phaseOf, answers, s, n + k))
    ensures SameStored(Runs(phaseOf, answers, s, n + k), Runs(phaseOf, answers, s, n + k + 1))
    decreases k
  {
    hide Alone, Runs, OneRun, Answer, Step;
    if k > 0 {
      RestingStaysAtRest(phaseOf, answers, s, n, k - 1);
      RestIsFixed(phaseOf, answers, s, n + k - 1);
    }
  }

  /** Convergence: after as many runs as the measure says, no further run changes the object or
      its StatefulSets. */
  lemma ComesToRest(phaseOf: seq<Condition> -> Phase, answers: Answers, s: State, n: nat, k: nat)
    requires Alone(s) && s.worker.pc == Idle && Measure(phaseOf, s) <= n
    ensures SameStored(Runs(phaseOf, answers, s, n), Runs(phaseOf, answers, s, n + k))
  {
    hide *;
    RunsRestOrLower(phaseOf, answers, s, n, n, Runs(phaseOf, answers, s, n), Runs(phaseOf, answers, s, n + 1));
    NextRun(phaseOf, answers, s, n);
    RestingStaysAtRest(phaseOf, answers, s, n, k);
  }

  lemma StoredIsAlone(s: State)
    requires StoredInv(s) && s.worker.pc == Idle
    ensures Alone(s)
  {
    assert Good(Current(s).conditions);
  }

  /** The same from any point any run can reach, as soon as the others stop and the worker is
      between two runs. */
  lemma EveryRunCanRest(phaseOf: seq<Condition> -> Phase, answers: Answers, sharded: bool, spec: Spec, events: seq<Event>,
                        s: State, n: nat, k: nat)
    requires s == Run(Start(sharded, spec), events) && s.worker.pc == Idle
    ensures Alone(s) && (Measure(phaseOf, s) <= n ==> SameStored(Runs(phaseOf, answers, s, n), Runs(phaseOf, answers, s, n + k)))
  {
    RunKeepsStored(sharded, spec, events);
    StoredIsAlone(s);
    hide *;
    if Measure(phaseOf, s) <= n {
      ComesToRest(phaseOf, answers, s, n, k);
    }
  }

  /** How far away rest can be: the number of shards plus a constant. */
  lemma MeasureIsBounded(phaseOf: seq<Condition> -> Phase, s: State)
    requires s.hist != []
    ensures Measure(phaseOf, s) <= 255 + if Current(s).spec.halted then |s.nodes| else Current(s).spec.shards + 2
  {
    if !Current(s).spec.halted {
      var n := Current(s).spec.shards;
      TargetSize(n);
      SubsetIsSmaller(Target(s.sharded, n) - s.nodes, Target(s.sharded, n));
    }
  }

  lemma {:induction false} ShardCount(n: nat)
    ensures |set k: nat | k < n :: ShardNode(k)| == n
  {
    if n > 0 {
      ShardCount(n - 1);
      assert (set k: nat | k < n :: ShardNode(k)) == (set k: nat | k < n - 1 :: ShardNode(k)) + {ShardNode(n - 1)};
    }
  }

  lemma TargetSize(n: nat)
    ensures |Target(true, n)| == n + 2 && |Target(false, n)| == 1
  {
    var shards := set k: nat | k < n :: ShardNode(k);
    ShardCount(n);
    assert Target(true, n) == {ConfigNode, MongosNode} + shards && {ConfigNode, MongosNode} !! shards;
  }
}
