/** What it means that the operator has come to rest: when the calls go through and a run changes
    nothing any more, everything the object asks for has been done. Together with convergence: from
    every point a run can reach, left alone with obliging calls, the operator gets it all done. */
module OperatorRest {
  import opened Common
  import opened Conditions
  import opened Operator
  import opened OperatorSafety
  import opened OperatorConvergence

  /* ---------- the operator's own conditions are not ahead ---------- */

  /** Conditions only the operator writes carry no generation the object has not reached. */
  ghost predicate Recent(v: Version) {
    forall kind | kind in {HALTED, ACCEPTING_CONNECTION, READY} ::
      Look(v.conditions, kind).Some? ==> Look(v.conditions, kind).value.observedGeneration <= v.generation
  }

  ghost predicate RestInv(s: State) {
    StoredInv(s) && s.hist != [] && Recent(Current(s))
  }

  lemma SetStaysRecent(v: Version, c: Condition)
    requires UniqueKinds(v.conditions) && Recent(v)
    requires c.kind in {HALTED, ACCEPTING_CONNECTION, READY} ==> c.observedGeneration <= v.generation
    ensures UniqueKinds(SetCondition(v.conditions, c)) && Recent(v.(conditions := SetCondition(v.conditions, c)))
  {
    SetKeepsUniqueKinds(v.conditions, c);
    hide Look, SetCondition;
    forall kind {
      LookSet(v.conditions, c, kind);
    }
  }

  lemma BothStayRecent(v: Version, generation: nat)
    requires UniqueKinds(v.conditions) && Recent(v) && generation <= v.generation
    ensures UniqueKinds(BothFalse(v.conditions, generation)) && Recent(v.(conditions := BothFalse(v.conditions, generation)))
  {
    hide Recent, SetCondition;
    var a := Condition(ACCEPTING_CONNECTION, StatusFalse, generation, BY_OPERATOR);
    var r := Condition(READY, StatusFalse, generation, BY_OPERATOR);
    SetStaysRecent(v, a);
    SetStaysRecent(v.(conditions := SetCondition(v.conditions, a)), r);
  }

  lemma HaltStaysRecent(v: Version, generation: nat)
    requires UniqueKinds(v.conditions) && Recent(v) && generation <= v.generation
    ensures Recent(v.(conditions := HaltedConditions(v.conditions, generation)))
  {
    hide Recent, SetCondition, BothFalse;
    var h := Condition(HALTED, StatusTrue, generation, BY_OPERATOR);
    SetStaysRecent(v, h);
    BothStayRecent(v.(conditions := SetCondition(v.conditions, h)), generation);
  }

  lemma RemovalStaysRecent(v: Version, gone: Kind)
    requires UniqueKinds(v.conditions) && Recent(v)
    ensures Recent(v.(conditions := RemoveCondition(v.conditions, gone)))
  {
    hide Look, RemoveCondition;
    forall kind | kind != gone {
      LookRemove(v.conditions, gone, kind);
    }
    RemoveKeepsUniqueKinds(v.conditions, gone);
    LookTells(RemoveCondition(v.conditions, gone), gone);
  }

  /** The current version, or one that differs in nothing this is about. */
  lemma AppendedIsCurrent(s: State, v: Version)
    requires s.hist != []
    ensures Append(s, v).hist != [] && Current(Append(s, v)) == v
  {
  }

  lemma WorkerIsNotAhead(s: State)
    requires StoredInv(s) && s.worker.pc != Idle
    ensures s.hist != [] && s.worker.obj.generation <= Current(s).generation
  {
    hide Good, Look, Vouched, Looking;
    assert Leq(s.hist[s.worker.base], s.hist[|s.hist| - 1]);
  }

  /** What a status write leaves as the current version. */
  lemma WrittenIsRecent(s: State, cs: seq<Condition>)
    requires s.hist != [] && Recent(Current(s).(conditions := cs))
    ensures var t := WriteConditions(s, cs); t.hist != [] && Recent(Current(t))
  {
    hide Recent;
    AppendedIsCurrent(s, Current(s).(conditions := cs));
  }

  lemma HaltOrCreateStaysRecent(s: State)
    requires RestInv(s)
    ensures var t := HaltOrCreate(s); t.hist != [] && Recent(Current(t))
  {
    CurrentIsGood(s);
    hide Recent, StoredInv, Good, RemoveCondition, WriteConditions, HasCondition;
    GoodIsUnique(Current(s).conditions);
    RemovalStaysRecent(Current(s), HALTED);
    WrittenIsRecent(s, RemoveCondition(Current(s).conditions, HALTED));
  }

  lemma StartStaysRecent(s: State)
    requires RestInv(s)
    ensures var c := Condition(PROVISIONING_STARTED, StatusTrue, 0, BY_OPERATOR);
            var t := WriteConditions(s, SetCondition(Current(s).conditions, c));
            t.hist != [] && Recent(Current(t))
  {
    CurrentIsGood(s);
    var c := Condition(PROVISIONING_STARTED, StatusTrue, 0, BY_OPERATOR);
    hide Recent, StoredInv, Good, SetCondition, WriteConditions;
    GoodIsUnique(Current(s).conditions);
    SetStaysRecent(Current(s), c);
    WrittenIsRecent(s, SetCondition(Current(s).conditions, c));
  }

  lemma PhaseStaysRecent(s: State, phase: Phase)
    requires RestInv(s)
    ensures var t := WritePhase(s, phase); t.hist != [] && Recent(Current(t))
  {
    hide Recent, StoredInv;
    AppendedIsCurrent(s, Current(s).(phase := phase));
    SameStatusIsRecent(Current(s), Current(s).(phase := phase));
  }

  lemma DecideStaysRecent(s: State, phase: Phase)
    requires RestInv(s)
    ensures var t := DecideStep(s, phase); t.hist != [] && Recent(Current(t))
  {
    HaltOrCreateStaysRecent(s);
    StartStaysRecent(s);
    PhaseStaysRecent(s, phase);
    assert s.hist != [];
    hide Recent, RestInv, SetCondition, WriteConditions, WritePhase, HaltOrCreate, IsConditionTrue;
  }

  lemma HaltWriteStaysRecent(s: State)
    requires RestInv(s) && s.worker.pc.Top?
    ensures var t := WriteConditions(s, HaltedConditions(Current(s).conditions, s.worker.obj.generation));
            t.hist != [] && Recent(Current(t))
  {
    CurrentIsGood(s);
    WorkerIsNotAhead(s);
    hide Recent, StoredInv, Good, HaltedConditions, WriteConditions;
    GoodIsUnique(Current(s).conditions);
    HaltStaysRecent(Current(s), s.worker.obj.generation);
    WrittenIsRecent(s, HaltedConditions(Current(s).conditions, s.worker.obj.generation));
  }

  lemma TopStaysRecent(s: State, reply: Reply)
    requires RestInv(s) && s.worker.pc.Top?
    ensures var t := TopStep(s, reply); t.hist != [] && Recent(Current(t))
  {
    HaltWriteStaysRecent(s);
    if reply.PhaseIs? {
      DecideStaysRecent(s, reply.phase);
    }
    hide Recent, StoredInv, DecideStep, HaltedConditions, WriteConditions;
    AppendedIsCurrent(s, Current(s).(finalizer := true));
    SameStatusIsRecent(Current(s), Current(s).(finalizer := true));
  }

  lemma GoodIsUnique(cs: seq<Condition>)
    requires Good(cs)
    ensures UniqueKinds(cs)
  {
  }

  lemma SameStatusIsRecent(v: Version, w: Version)
    requires Recent(v) && w.conditions == v.conditions && v.generation <= w.generation
    ensures Recent(w)
  {
  }

  lemma SpecStaysRecent(s: State, spec: Spec)
    requires s.hist != [] && Recent(Current(s))
    ensures var t := WriteSpec(s, spec); t.hist != [] && Recent(Current(t))
  {
    hide Recent;
    var v := Current(s).(spec := spec, generation := Current(s).generation + 1);
    SameStatusIsRecent(Current(s), v);
  }

  lemma SetupStaysRecent(s: State, reply: Reply)
    requires s.hist != [] && Recent(Current(s)) && s.worker.pc.Setup?
    ensures var t := SetupStep(s, reply); t.hist != [] && Recent(Current(t))
  {
    hide Recent, WriteSpec;
    SpecStaysRecent(s, Current(s).spec.(authSecret := true));
    SpecStaysRecent(s, Current(s).spec.(keyFileSecret := true));
  }

  lemma AfterStaysRecent(s: State, reply: Reply)
    requires RestInv(s) && s.worker.pc.After?
    ensures var t := AfterStep(s, reply); t.hist != [] && Recent(Current(t))
  {
    CurrentIsGood(s);
    var v, c := Current(s), Condition(PROVISIONED, StatusTrue, s.worker.obj.generation, BY_OPERATOR);
    hide Recent, StoredInv, Good, SetCondition, WriteSpec, Append, IsConditionTrue, HasCondition;
    GoodIsUnique(v.conditions);
    SetStaysRecent(v, c);
    AppendedIsCurrent(s, v.(conditions := SetCondition(v.conditions, c)));
    SpecStaysRecent(s, v.spec.(initialized := true));
  }

  lemma HealthStaysRecent(s: State, e: Event)
    requires RestInv(s) && (e.HealthFailed? || e.HealthConnected? || e.HealthPinged? || e.HealthStopped?)
    ensures var t := HealthStep(s, e); t.hist != [] && Recent(Current(t))
  {
    CurrentIsGood(s);
    HealthIsNotAhead(s);
    var v := Current(s);
    hide Recent, StoredInv, Good, SetCondition, BothFalse, Append;
    GoodIsUnique(v.conditions);
    if e.HealthPinged? && s.health.Accepted? {
      var c := Condition(READY, StatusTrue, s.health.generation, BY_OPERATOR);
      SetStaysRecent(v, c);
      AppendedIsCurrent(s, v.(conditions := SetCondition(v.conditions, c)));
    }
    if (e.HealthFailed? || e.HealthConnected?) && Checkable(s, e.version) {
      var g := s.hist[e.version].generation;
      var c := Condition(ACCEPTING_CONNECTION, StatusTrue, g, BY_OPERATOR);
      SetStaysRecent(v, c);
      BothStayRecent(v, g);
      AppendedIsCurrent(s, v.(conditions := SetCondition(v.conditions, c)));
      AppendedIsCurrent(s, v.(conditions := BothFalse(v.conditions, g)));
    }
  }

  lemma HealthIsNotAhead(s: State)
    requires StoredInv(s)
    ensures s.hist != [] && forall i | 0 <= i < |s.hist| :: s.hist[i].generation <= Current(s).generation
    ensures s.health.Accepted? ==> s.health.generation <= Current(s).generation
  {
    hide Good, Look, Vouched, Linked;
    assert forall i | 0 <= i < |s.hist| :: Leq(s.hist[i], s.hist[|s.hist| - 1]);
  }

  lemma OutsideStaysRecent(s: State, e: Event)
    requires RestInv(s)
    ensures var t := OutsideStep(s, e); t.hist != [] && Recent(Current(t))
  {
    CurrentIsGood(s);
    var v := Current(s);
    hide Recent, StoredInv, Good, SetCondition, RemoveCondition, WriteSpec, Append;
    GoodIsUnique(v.conditions);
    match e {
      case Outside(c) =>
        if !OwnedByOperator(c.kind) {
          SetStaysRecent(v, c);
          AppendedIsCurrent(s, v.(conditions := SetCondition(v.conditions, c)));
        }
      case OutsideRemoved(kind) =>
        RemovalStaysRecent(v, kind);
        AppendedIsCurrent(s, v.(conditions := RemoveCondition(v.conditions, kind)));
      case Edit(spec) => SpecStaysRecent(s, spec);
      case _ =>
    }
  }

  lemma QuietStaysRecent(s: State, reply: Reply)
    requires s.hist != [] && Recent(Current(s))
    ensures var t := Begin(s, reply); t.hist != [] && Recent(Current(t))
    ensures var t := NodesStep(s, reply); t.hist != [] && Recent(Current(t))
  {
    hide Recent, IsProvisioned;
  }

  lemma StepStaysRecent(s: State, reply: Reply)
    requires RestInv(s)
    ensures var t := Step(s, reply); t.hist != [] && Recent(Current(t))
  {
    assert s.hist != [];
    hide StoredInv, Recent, Begin, TopStep, SetupStep, NodesStep, AfterStep;
    QuietStaysRecent(s, reply);
    match s.worker.pc {
      case Idle =>
      case Top(_) => TopStaysRecent(s, reply);
      case Setup(_) => SetupStaysRecent(s, reply);
      case Nodes(_) =>
      case After(_) => AfterStaysRecent(s, reply);
    }
  }

  lemma ApplyKeepsRestInv(s: State, e: Event)
    requires RestInv(s)
    ensures RestInv(Apply(s, e))
  {
    ApplyKeepsStored(s, e);
    assert s.hist != [];
    hide StoredInv, Recent, Step, HealthStep, OutsideStep;
    match e {
      case Act(reply) => StepStaysRecent(s, reply);
      case Crash =>
      case HealthFailed(_) => HealthStaysRecent(s, e);
      case HealthConnected(_) => HealthStaysRecent(s, e);
      case HealthPinged => HealthStaysRecent(s, e);
      case HealthStopped => HealthStaysRecent(s, e);
      case _ => OutsideStaysRecent(s, e);
    }
  }

  lemma {:induction false} RunKeepsRestInv(sharded: bool, spec: Spec, events: seq<Event>)
    ensures RestInv(Run(Start(sharded, spec), events))
  {
    if events == [] {
      RunKeepsStored(sharded, spec, []);
    } else {
      hide Apply, RestInv;
      RunKeepsRestInv(sharded, spec, Front(events));
      ApplyKeepsRestInv(Run(Start(sharded, spec), Front(events)), Last(events));
    }
  }

  /* ---------- a run that changes nothing ---------- */

  /** Every call goes through, and every StatefulSet comes back ready. */
  ghost predicate Obliging(answers: Answers) {
    && answers(Top(Finalize)) == Ok && answers(Top(HaltDelete)) == Ok && answers(Top(HaltStatus)) == Ok
    && (forall pc: SetupPc :: answers(Setup(pc)) == Ok)
    && (forall pc: NodesPc :: answers(Nodes(pc)).Returned? && answers(Nodes(pc)).ready)
    && (forall pc: AfterPc :: answers(After(pc)) == Ok)
  }

  /** In the middle of a run that is going to leave everything stored as it is. */
  ghost predicate Resting(phaseOf: seq<Condition> -> Phase, answers: Answers, s: State) {
    && Alone(s) && s.worker.pc != Idle && s.worker.obj == Current(s) && s.worker.allReady
    && SameStored(s, Finish(phaseOf, answers, s))
  }

  /** Then so does each of its steps: a write would have lowered the measure for good. */
  lemma StepRests(phaseOf: seq<Condition> -> Phase, answers: Answers, s: State, t: State)
    requires Resting(phaseOf, answers, s) && t == Step(s, Answer(phaseOf, answers, s))
    ensures Alone(t) && SameStored(s, t) && SameStored(t, Finish(phaseOf, answers, t)) && Left(t.worker) < Left(s.worker)
  {
    StepProgress(phaseOf, answers, s);
    StepsRunOut(s, Answer(phaseOf, answers, s));
    FinishCalms(phaseOf, answers, t);
    hide Alone, Step, Left, Target;
  }

  lemma StaysResting(phaseOf: seq<Condition> -> Phase, answers: Answers, s: State, t: State)
    requires Resting(phaseOf, answers, s) && t == Step(s, Answer(phaseOf, answers, s))
    requires t.worker.pc != Idle && t.worker.obj == s.worker.obj && t.worker.allReady
    ensures Resting(phaseOf, answers, t) && Current(t) == Current(s) && t.nodes == s.nodes && t.sharded == s.sharded
    ensures Left(t.worker) < Left(s.worker)
  {
    StepRests(phaseOf, answers, s, t);
    hide Finish, Step, Left;
  }

  ghost predicate ProvisionedDone(v: Version) {
    ShowsReady(v) ==> HasCondition(v.conditions, PROVISIONED)
  }

  ghost predicate InitDone(v: Version) {
    v.spec.hasInit && IsProvisioned(v) ==> v.spec.initialized
  }

  ghost predicate AfterDone(pc: AfterPc, v: Version) {
    match pc
    case AppBinding => WaitsForRestore(v) || (ProvisionedDone(v) && InitDone(v))
    case Users => InitDone(v)
    case Initialize => InitDone(v)
    case _ => ProvisionedDone(v) && InitDone(v)
  }

  lemma SetMakesPresent(cs: seq<Condition>, c: Condition)
    ensures HasCondition(SetCondition(cs, c), c.kind)
  {
    var i := GetCondition(cs, c.kind);
    assert SetCondition(cs, c)[if i == -1 then |cs| else i].kind == c.kind;
  }

  lemma {:induction false} AfterRests(phaseOf: seq<Condition> -> Phase, answers: Answers, s: State)
    requires Resting(phaseOf, answers, s) && Obliging(answers) && s.worker.pc.After?
    ensures s.hist != [] && AfterDone(s.worker.pc.after, Current(s))
    decreases Left(s.worker)
  {
    var reply := Answer(phaseOf, answers, s);
    var t, v := Step(s, reply), Current(s);
    assert reply == Ok;
    hide Obliging, Finish, SetCondition, HasCondition, IsConditionTrue, Left, Resting, UniqueKinds;
    assert s.worker.obj == v && s.worker.allReady by { RestingMeans(phaseOf, answers, s); }
    match s.worker.pc.after {
      case AppBinding =>
        if !WaitsForRestore(v) {
          StaysResting(phaseOf, answers, s, t);
          AfterRests(phaseOf, answers, t);
        }
      case Monitoring =>
        StaysResting(phaseOf, answers, s, t);
        AfterRests(phaseOf, answers, t);
      case WriteProvisioned =>
        ProvisionedRests(phaseOf, answers, s, t);
        StaysResting(phaseOf, answers, s, t);
        AfterRests(phaseOf, answers, t);
      case Users =>
        StaysResting(phaseOf, answers, s, t);
        AfterRests(phaseOf, answers, t);
      case Initialize => InitializeRests(phaseOf, answers, s, t);
    }
  }

  lemma RestingMeans(phaseOf: seq<Condition> -> Phase, answers: Answers, s: State)
    requires Resting(phaseOf, answers, s)
    ensures s.hist != [] && s.worker.obj == Current(s) && s.worker.allReady
  {
  }

  lemma ProvisionedRests(phaseOf: seq<Condition> -> Phase, answers: Answers, s: State, t: State)
    requires Resting(phaseOf, answers, s) && s.worker.pc == After(WriteProvisioned)
    requires t == AfterStep(s, Ok) && t == Step(s, Answer(phaseOf, answers, s))
    ensures s.hist != [] && ProvisionedDone(Current(s))
    ensures t.worker == s.worker.(pc := After(Users))
  {
    StepRests(phaseOf, answers, s, t);
    var v := Current(s);
    if ShowsReady(v) && !IsProvisioned(v) {
      var c := Condition(PROVISIONED, StatusTrue, v.generation, BY_OPERATOR);
      SetMakesPresent(v.conditions, c);
      hide Alone, Finish, SetCondition, HasCondition, Left, Step;
      assert t.hist == WriteConditions(s, SetCondition(v.conditions, c)).hist;
      SameHistoryMeans(s, v.(conditions := SetCondition(v.conditions, c)));
    } else {
      ProvisionedIsPresent(v.conditions);
    }
  }

  lemma ProvisionedIsPresent(cs: seq<Condition>)
    ensures IsConditionTrue(cs, PROVISIONED) ==> HasCondition(cs, PROVISIONED)
  {
  }

  lemma SameHistoryMeans(s: State, v: Version)
    requires s.hist != [] && Append(s, v).hist == s.hist
    ensures v == Current(s)
  {
  }

  lemma SpecShows(s: State, spec: Spec)
    requires s.hist != []
    ensures WriteSpec(s, spec).hist == s.hist ==> spec == Current(s).spec
  {
  }

  lemma InitializeRests(phaseOf: seq<Condition> -> Phase, answers: Answers, s: State, t: State)
    requires Resting(phaseOf, answers, s) && s.worker.pc == After(Initialize)
    requires t == AfterStep(s, Ok) && t == Step(s, Answer(phaseOf, answers, s))
    ensures s.hist != [] && InitDone(Current(s))
  {
    StepRests(phaseOf, answers, s, t);
    hide Alone, Finish, IsConditionTrue, Left, Step;
    SpecShows(s, Current(s).spec.(initialized := true));
  }

  /* ---------- StatefulSets ---------- */

  /** StatefulSets a run still comes to from this place on. */
  function Ahead(pc: NodesPc, shards: nat): set<Node> {
    match pc
    case Config => {ConfigNode, MongosNode} + set k: nat | k < shards :: ShardNode(k)
    case Shard(i) => {MongosNode} + set k: nat | i <= k < shards :: ShardNode(k)
    case Single => {SingleNode}
    case _ => {MongosNode}
  }

  lemma {:induction false} NodesRest(phaseOf: seq<Condition> -> Phase, answers: Answers, s: State)
    requires Resting(phaseOf, answers, s) && Obliging(answers) && s.worker.pc.Nodes?
    ensures s.hist != [] && Ahead(s.worker.pc.nodes, Current(s).spec.shards) <= s.nodes && AfterDone(AppBinding, Current(s))
    decreases Left(s.worker)
  {
    var reply := Answer(phaseOf, answers, s);
    var t, pc := Step(s, reply), s.worker.pc.nodes;
    assert reply.Returned? && reply.ready;
    StepRests(phaseOf, answers, s, t);
    assert ShardsAreInRange(s);
    hide Obliging, Finish, Left, Resting, AfterDone, Alone, IsProvisioned;
    RestingMeans(phaseOf, answers, s);
    assert t == NodesStep(s, reply);
    StaysResting(phaseOf, answers, s, t);
    if pc != Gate {
      assert t.nodes == s.nodes + {NodeAt(pc)};
    }
    if t.worker.pc.After? {
      AfterRests(phaseOf, answers, t);
    } else {
      NodesRest(phaseOf, answers, t);
    }
  }

  ghost predicate ShardsAreInRange(s: State) {
    s.worker.pc.Nodes? && s.worker.pc.nodes.Shard? ==> s.worker.pc.nodes.index < s.worker.obj.spec.shards
  }

  /* ---------- secrets ---------- */

  ghost predicate SecretsDone(pc: SetupPc, spec: Spec) {
    && (pc == Services || pc == Auth ==> spec.authSecret)
    && (pc != Certificates ==> spec.keyFileRequired ==> spec.keyFileSecret)
  }

  lemma {:induction false} SetupRests(phaseOf: seq<Condition> -> Phase, answers: Answers, s: State)
    requires Resting(phaseOf, answers, s) && Obliging(answers) && s.worker.pc.Setup?
    ensures s.hist != [] && SecretsDone(s.worker.pc.setup, Current(s).spec)
    ensures Ahead(if s.sharded then Config else Single, Current(s).spec.shards) <= s.nodes && AfterDone(AppBinding, Current(s))
    decreases Left(s.worker)
  {
    var reply := Answer(phaseOf, answers, s);
    var t := Step(s, reply);
    assert reply == Ok;
    SecretIsThere(phaseOf, answers, s, t);
    hide Obliging, Finish, Left, Resting, AfterDone, Alone, WriteSpec, SetupStep, Ahead;
    RestingMeans(phaseOf, answers, s);
    assert t == SetupStep(s, Ok);
    SetupGoesOn(s);
    StaysResting(phaseOf, answers, s, t);
    if t.worker.pc.Nodes? {
      NodesRest(phaseOf, answers, t);
    } else {
      SetupRests(phaseOf, answers, t);
    }
  }

  lemma SetupGoesOn(s: State)
    requires s.hist != [] && s.worker.pc.Setup?
    requires s.worker.pc == Setup(Auth) ==> s.worker.obj.spec.authSecret
    requires s.worker.pc == Setup(KeyFile) && s.worker.obj.spec.keyFileRequired ==> s.worker.obj.spec.keyFileSecret
    ensures var t := SetupStep(s, Ok);
            && t.worker == s.worker.(pc := t.worker.pc)
            && t.worker.pc == match s.worker.pc.setup
                              case Services => Setup(Auth)
                              case Auth => Setup(KeyFile)
                              case KeyFile => Setup(Certificates)
                              case Certificates => Nodes(if s.sharded then Config else Single)
  {
    hide WriteSpec;
    match s.worker.pc.setup {
      case Services =>
      case Auth =>
      case KeyFile =>
      case Certificates =>
    }
  }

  /** A missing reference would have been written. */
  lemma SecretIsThere(phaseOf: seq<Condition> -> Phase, answers: Answers, s: State, t: State)
    requires Resting(phaseOf, answers, s) && s.worker.pc.Setup? && Answer(phaseOf, answers, s) == Ok
    requires t == Step(s, Ok)
    ensures s.hist != []
    ensures s.worker.pc == Setup(Auth) ==> s.worker.obj.spec.authSecret
    ensures s.worker.pc == Setup(KeyFile) && s.worker.obj.spec.keyFileRequired ==> s.worker.obj.spec.keyFileSecret
  {
    StepRests(phaseOf, answers, s, t);
    hide Alone, Finish, Left;
    SpecShows(s, Current(s).spec.(authSecret := true));
    SpecShows(s, Current(s).spec.(keyFileSecret := true));
  }

  /* ---------- what rest means ---------- */

  ghost predicate TopDone(phaseOf: seq<Condition> -> Phase, v: Version, sharded: bool, nodes: set<Node>) {
    && v.phase == phaseOf(v.conditions) && v.conditions != []
    && (!IsConditionTrue(v.conditions, PAUSED) ==>
          if v.spec.halted then v.spec.mayHalt ==> nodes == {} && HaltedConditions(v.conditions, v.generation) == v.conditions
          else
            && !HasCondition(v.conditions, HALTED) && SecretsDone(Services, v.spec)
            && Ahead(if sharded then Config else Single, v.spec.shards) <= nodes && AfterDone(AppBinding, v))
  }

  lemma HaltRests(phaseOf: seq<Condition> -> Phase, answers: Answers, s: State)
    requires Resting(phaseOf, answers, s) && Obliging(answers) && s.worker.pc == Top(HaltDelete)
    ensures s.hist != [] && s.nodes == {} && HaltedConditions(Current(s).conditions, Current(s).generation) == Current(s).conditions
  {
    var v := Current(s);
    var t := At(s.(nodes := {}), Top(HaltStatus));
    assert t == Step(s, Answer(phaseOf, answers, s));
    StepRests(phaseOf, answers, s, t);
    StaysResting(phaseOf, answers, s, t);
    var u := Step(t, Answer(phaseOf, answers, t));
    StepRests(phaseOf, answers, t, u);
    hide Alone, Finish, Left, HaltedConditions, Resting;
    assert u.hist == WriteConditions(t, HaltedConditions(v.conditions, v.generation)).hist;
    SameHistoryMeans(t, v.(conditions := HaltedConditions(v.conditions, v.generation)));
  }

  lemma WrittenShows(s: State, cs: seq<Condition>)
    requires s.hist != [] && WriteConditions(s, cs).hist == s.hist
    ensures cs == Current(s).conditions
  {
  }

  lemma HaltOrCreateRests(phaseOf: seq<Condition> -> Phase, answers: Answers, s: State)
    requires Resting(phaseOf, answers, s) && Obliging(answers) && s.worker.pc == Top(Decide)
    requires Step(s, Answer(phaseOf, answers, s)) == HaltOrCreate(s)
    ensures s.hist != []
    ensures var v := Current(s);
            if v.spec.halted then v.spec.mayHalt ==> s.nodes == {} && HaltedConditions(v.conditions, v.generation) == v.conditions
            else
              && !HasCondition(v.conditions, HALTED) && SecretsDone(Services, v.spec)
              && Ahead(if s.sharded then Config else Single, v.spec.shards) <= s.nodes && AfterDone(AppBinding, v)
  {
    var v, t := Current(s), HaltOrCreate(s);
    StepRests(phaseOf, answers, s, t);
    RemovalRemoves(s);
    RestingMeans(phaseOf, answers, s);
    hide Obliging, Finish, Left, Resting, AfterDone, Alone, HaltedConditions, RemoveCondition, HasCondition, Ahead, WriteConditions, Step;
    if v.spec.halted {
      if v.spec.mayHalt {
        StaysResting(phaseOf, answers, s, t);
        HaltRests(phaseOf, answers, t);
      }
    } else {
      if HasCondition(v.conditions, HALTED) {
        WrittenShows(s, RemoveCondition(v.conditions, HALTED));
        assert false;
      }
      StaysResting(phaseOf, answers, s, t);
      SetupRests(phaseOf, answers, t);
    }
  }

  lemma RemovalRemoves(s: State)
    requires Alone(s)
    ensures s.hist != [] && !HasCondition(RemoveCondition(Current(s).conditions, HALTED), HALTED)
  {
    RemoveKeepsUniqueKinds(Current(s).conditions, HALTED);
  }

  lemma DecideRests(phaseOf: seq<Condition> -> Phase, answers: Answers, s: State)
    requires Resting(phaseOf, answers, s) && Obliging(answers) && s.worker.pc == Top(Decide)
    ensures s.hist != [] && TopDone(phaseOf, Current(s), s.sharded, s.nodes)
  {
    var v := Current(s);
    var t := Step(s, Answer(phaseOf, answers, s));
    StepRests(phaseOf, answers, s, t);
    RestingMeans(phaseOf, answers, s);
    var c := Condition(PROVISIONING_STARTED, StatusTrue, 0, BY_OPERATOR);
    SetMakesNonempty(v.conditions, c);
    assert t == DecideStep(s, phaseOf(v.conditions));
    hide Obliging, Finish, Left, Resting, AfterDone, Alone, HaltedConditions, RemoveCondition, SetCondition, HasCondition, Ahead, Step, HaltOrCreate, SecretsDone;
    if v.phase != phaseOf(v.conditions) {
      SameHistoryMeans(s, v.(phase := phaseOf(v.conditions)));
      assert false;
    } else if v.conditions == [] {
      WrittenShows(s, SetCondition(v.conditions, c));
      assert false;
    } else if !IsConditionTrue(v.conditions, PAUSED) {
      HaltOrCreateRests(phaseOf, answers, s);
    }
  }

  lemma FinalizeRests(phaseOf: seq<Condition> -> Phase, answers: Answers, s: State)
    requires Resting(phaseOf, answers, s) && Obliging(answers) && s.worker.pc == Top(Finalize)
    ensures s.hist != [] && Current(s).finalizer && TopDone(phaseOf, Current(s), s.sharded, s.nodes)
  {
    var v := Current(s);
    var t := Step(s, Answer(phaseOf, answers, s));
    StepRests(phaseOf, answers, s, t);
    RestingMeans(phaseOf, answers, s);
    assert t == TopStep(s, Ok);
    hide Obliging, Finish, Left, Resting, TopDone, Alone, Step;
    if !v.finalizer {
      SameHistoryMeans(s, v.(finalizer := true));
      assert false;
    }
    StaysResting(phaseOf, answers, s, t);
    DecideRests(phaseOf, answers, t);
  }

  /** Obliging calls, the newest version read, and a run that leaves object and StatefulSets as they
      are: then everything has been done. */
  lemma RestMeansDone(phaseOf: seq<Condition> -> Phase, answers: Answers, s: State)
    requires Alone(s) && s.worker.pc == Idle && Obliging(answers)
    requires SameStored(s, OneRun(phaseOf, answers, s))
    ensures s.hist != [] && Current(s).finalizer && TopDone(phaseOf, Current(s), s.sharded, s.nodes)
  {
    var t := Step(s, Answer(phaseOf, answers, s));
    StepProgress(phaseOf, answers, s);
    assert t == Begin(s, Read(|s.hist| - 1));
    hide Finish, TopDone, Obliging, Step;
    FinalizeRests(phaseOf, answers, t);
  }

  /* ---------- and it comes to that ---------- */

  lemma {:induction false} FinishKeepsRestInv(phaseOf: seq<Condition> -> Phase, answers: Answers, s: State)
    requires Alone(s) && RestInv(s)
    ensures RestInv(Finish(phaseOf, answers, s))
    decreases Left(s.worker)
  {
    if s.worker.pc != Idle {
      var reply := Answer(phaseOf, answers, s);
      StepProgress(phaseOf, answers, s);
      StepsRunOut(s, reply);
      ApplyKeepsRestInv(s, Act(reply));
      assert Apply(s, Act(reply)) == Step(s, reply);
      hide Alone, RestInv, Step;
      FinishKeepsRestInv(phaseOf, answers, Step(s, reply));
    }
  }

  lemma OneRunKeepsRestInv(phaseOf: seq<Condition> -> Phase, answers: Answers, s: State)
    requires Alone(s) && s.worker.pc == Idle && RestInv(s)
    ensures RestInv(OneRun(phaseOf, answers, s))
  {
    var reply := Answer(phaseOf, answers, s);
    StepProgress(phaseOf, answers, s);
    ApplyKeepsRestInv(s, Act(reply));
    assert Apply(s, Act(reply)) == Step(s, reply);
    hide Alone, RestInv, Step, Finish;
    FinishKeepsRestInv(phaseOf, answers, Step(s, reply));
  }

  lemma {:induction false} RunsKeepRestInv(phaseOf: seq<Condition> -> Phase, answers: Answers, s: State, n: nat)
    requires Alone(s) && s.worker.pc == Idle && RestInv(s)
    ensures RestInv(Runs(phaseOf, answers, s, n))
  {
    hide Alone, RestInv, OneRun;
    if n > 0 {
      RunsKeepRestInv(phaseOf, answers, s, n - 1);
      OneRunKeepsRestInv(phaseOf, answers, Runs(phaseOf, answers, s, n - 1));
    }
  }

  lemma RunsAreDone(phaseOf: seq<Condition> -> Phase, answers: Answers, s: State, n: nat, t: State)
    requires Alone(s) && s.worker.pc == Idle && RestInv(s) && Obliging(answers)
    requires Measure(phaseOf, s) <= n && t == Runs(phaseOf, answers, s, n)
    ensures RestInv(t) && t.hist != [] && Current(t).finalizer && TopDone(phaseOf, Current(t), t.sharded, t.nodes)
  {
    hide Alone, RestInv, OneRun, Measure, Obliging, TopDone;
    ComesToRest(phaseOf, answers, s, n, 1);
    RunsKeepRestInv(phaseOf, answers, s, n);
    assert Runs(phaseOf, answers, s, n + 1) == OneRun(phaseOf, answers, t);
    RestMeansDone(phaseOf, answers, t);
  }

  lemma HaltIsShown(v: Version)
    requires Good(v.conditions) && Recent(v) && HaltedConditions(v.conditions, v.generation) == v.conditions
    ensures IsConditionTrue(v.conditions, HALTED)
    ensures !IsConditionTrue(v.conditions, ACCEPTING_CONNECTION) && !IsConditionTrue(v.conditions, READY)
  {
    HaltShows(v.conditions, v.generation);
  }

  lemma PresentIsTrue(cs: seq<Condition>)
    requires Good(cs)
    ensures HasCondition(cs, PROVISIONED) ==> IsConditionTrue(cs, PROVISIONED)
  {
    LookTells(cs, PROVISIONED);
  }

  /** From every point any run can reach between two runs of the worker, left alone with calls that go
      through: after as many runs as the measure says the object has its finalizer and its phase. If it
      is to be halted and may be, no StatefulSet is left and the status says so; if it is not to be
      halted, nothing says it is, the secrets are referenced, config servers, every shard and mongos
      exist, and, unless it waits for a restore, it counts as provisioned once it has shown ready, and
      its init is marked done once it counts as provisioned. A paused object is left to itself. */
  lemma EverythingGetsDone(phaseOf: seq<Condition> -> Phase, answers: Answers, sharded: bool, spec: Spec, events: seq<Event>,
                           s: State, n: nat)
    requires s == Run(Start(sharded, spec), events) && s.worker.pc == Idle && Obliging(answers)
    ensures Alone(s)
    ensures Measure(phaseOf, s) <= n ==>
              var t := Runs(phaseOf, answers, s, n);
              t.hist != [] &&
              var v := Current(t);
              var cs := v.conditions;
              && v.finalizer && v.phase == phaseOf(cs) && cs != []
              && (!IsConditionTrue(cs, PAUSED) && v.spec.halted && v.spec.mayHalt ==>
                    && t.nodes == {} && IsConditionTrue(cs, HALTED)
                    && !IsConditionTrue(cs, ACCEPTING_CONNECTION) && !IsConditionTrue(cs, READY))
              && (!IsConditionTrue(cs, PAUSED) && !v.spec.halted ==>
                    && !HasCondition(cs, HALTED) && v.spec.authSecret && (v.spec.keyFileRequired ==> v.spec.keyFileSecret)
                    && (if t.sharded then {ConfigNode, MongosNode} + (set k: nat | k < v.spec.shards :: ShardNode(k)) <= t.nodes
                        else SingleNode in t.nodes)
                    && (!v.spec.waitForRestore || IsConditionTrue(cs, DATA_RESTORED) || HasCondition(cs, PROVISIONED) ==>
                          && (IsConditionTrue(cs, REPLICA_READY) && IsConditionTrue(cs, ACCEPTING_CONNECTION) && IsConditionTrue(cs, READY)
                              ==> IsConditionTrue(cs, PROVISIONED))
                          && (v.spec.hasInit && IsConditionTrue(cs, PROVISIONED) ==> v.spec.initialized)))
  {
    RunKeepsRestInv(sharded, spec, events);
    StoredIsAlone(s);
    if Measure(phaseOf, s) <= n {
      var t := Runs(phaseOf, answers, s, n);
      hide Alone, Run, Runs, Measure, Obliging, IsConditionTrue, HasCondition, HaltedConditions, Good, Recent;
      RunsAreDone(phaseOf, answers, s, n, t);
      var v := Current(t);
      CurrentIsGood(t);
      PresentIsTrue(v.conditions);
      if !IsConditionTrue(v.conditions, PAUSED) && v.spec.halted && v.spec.mayHalt {
        HaltIsShown(v);
      }
    }
  }
}
