/** What the schema manager gets done: with both servers up and every call granted, a resource that
    is not being deleted, on a database without collections or registered already, ends with its
    finalizer, its children, the init job or the restore, all conditions true and a final phase,
    while every other resource and outside writers to other databases go on as they like. */
module SchemaProgress {
  import opened Common
  import opened Conditions
  import opened SchemaStatus
  import opened SchemaProtocol
  import opened SchemaSafety
  import opened SchemaDeletion

  const GRANTED := Ensured(true, true, true, [])

  /** Reads see the current version, whatever is looked at is there, healthy and successful. */
  function GenerousReply(r: Resource): Reply
    requires r.hist != []
  {
    match r.worker.pc
    case Idle => Read(|r.hist| - 1)
    case Gating(Gate) => HEALTHY
    case Chaining(EnsureAccount) => Done
    case Chaining(GetCredential) => Done
    case Chaining(_) => GRANTED
    case Restoring(CopyRepository) => Done
    case Restoring(CopyAuthSecret) => Done
    case Restoring(EnsureRestore) => Restored(true, RestoreHasSucceeded, [])
    case Restoring(_) => GRANTED
    case Initializing(_) => GRANTED
    case _ => Done
  }

  /* ---------- what is asked for ---------- */

  /** The init job is wanted: a script, not initialized yet, no restore. */
  predicate WantsJob(spec: Spec) {
    !spec.restore && spec.init.Some? && !spec.init.value.initialized && spec.init.value.hasScript
  }

  const BASE: set<Child> := {SecretEngine, Role, ServiceAccount, AccessRequest}
  const FIVE: set<Kind> := {DATABASE_READY, VAULT_READY, SECRET_ENGINE_READY, ROLE_READY, ACCESS_REQUEST_READY}

  function WantedChildren(spec: Spec): set<Child> {
    if spec.restore then BASE + {Repository, RepositorySecret, AuthSecret, AppBinding, RestoreSession}
    else if WantsJob(spec) then BASE + {Job}
    else BASE
  }

  function WantedKinds(spec: Spec): set<Kind> {
    if spec.restore then FIVE + {REPOSITORY_FOUND, APPBINDING_FOUND, RESTORE_SESSION} else FIVE + {JOB_COMPLETED}
  }

  ghost predicate AllTrueIn(cs: seq<Condition>, kinds: set<Kind>) {
    forall k <- kinds :: IsConditionTrue(cs, k)
  }

  /** Children there are, and kinds known to be true in the copy, when an attempt that went well so
      far is at this place. */
  function ChildrenBy(pc: Pc, spec: Spec): set<Child> {
    match pc
    case Chaining(EnsureRole) => {SecretEngine}
    case Chaining(EnsureAccount) => {SecretEngine, Role}
    case Chaining(EnsureRequest) => {SecretEngine, Role, ServiceAccount}
    case Chaining(Approve) => BASE
    case Chaining(GetCredential) => BASE
    case Restoring(CopyRepository) => BASE
    case Restoring(CopyRepositorySecret) => BASE + {Repository}
    case Restoring(CopyAuthSecret) => BASE + {Repository, RepositorySecret}
    case Restoring(EnsureAppBinding) => BASE + {Repository, RepositorySecret, AuthSecret}
    case Restoring(EnsureRestore) => BASE + {Repository, RepositorySecret, AuthSecret, AppBinding}
    case Initializing(_) => BASE
    case FinalPatch => WantedChildren(spec)
    case _ => {}
  }

  function KnownBy(pc: Pc, spec: Spec): set<Kind> {
    match pc
    case Idle => {}
    case Gating(Announce) => {}
    case Gating(Gate) => {}
    case Chaining(EnsureRole) => {DATABASE_READY, VAULT_READY, SECRET_ENGINE_READY}
    case Chaining(EnsureAccount) => {DATABASE_READY, VAULT_READY, SECRET_ENGINE_READY, ROLE_READY}
    case Chaining(EnsureRequest) => {DATABASE_READY, VAULT_READY, SECRET_ENGINE_READY, ROLE_READY}
    case Chaining(Approve) => {DATABASE_READY, VAULT_READY, SECRET_ENGINE_READY, ROLE_READY}
    case Chaining(GetCredential) => FIVE
    case Restoring(CopyRepository) => FIVE
    case Restoring(CopyRepositorySecret) => FIVE
    case Restoring(CopyAuthSecret) => FIVE + {REPOSITORY_FOUND}
    case Restoring(EnsureAppBinding) => FIVE + {REPOSITORY_FOUND}
    case Restoring(EnsureRestore) => FIVE + {REPOSITORY_FOUND, APPBINDING_FOUND}
    case Initializing(ReadJob) => FIVE
    case Initializing(MakeJob) => FIVE + {JOB_COMPLETED}
    case FinalPatch => WantedKinds(spec)
    case _ => {DATABASE_READY, VAULT_READY}
  }

  /** Generous steps to the end of the attempt, at most. */
  function StepsToGo(pc: Pc): nat {
    match pc
    case Idle => 19
    case Gating(Announce) => 18
    case Gating(Gate) => 17
    case Gating(GatePatch) => 16
    case Registering(ListCollections) => 15
    case Registering(UpsertEntry) => 14
    case Registering(_) => 13
    case Chaining(EnsureEngine) => 12
    case Chaining(EnsureRole) => 11
    case Chaining(EnsureAccount) => 10
    case Chaining(EnsureRequest) => 9
    case Chaining(Approve) => 8
    case Chaining(GetCredential) => 7
    case Restoring(CopyRepository) => 6
    case Restoring(CopyRepositorySecret) => 5
    case Restoring(CopyAuthSecret) => 4
    case Restoring(EnsureAppBinding) => 3
    case Restoring(EnsureRestore) => 2
    case Initializing(ReadJob) => 3
    case Initializing(MakeJob) => 2
    case _ => 1
  }

  /* ---------- an attempt that goes well ---------- */

  /** Not being deleted, and asked for something that can be done: a missing spec.init ends the
      process. */
  ghost predicate Sensible(r: Resource) {
    && r.hist != [] && r.seen < |r.hist| && r.alive && !Current(r).deleting
    && (Current(r).spec.restore || Current(r).spec.init.Some?) && UniqueKinds(Current(r).conditions)
  }

  ghost predicate GoneWell(r: Resource)
    requires r.hist != []
  {
    var w := r.worker;
    && SameMeta(w.obj, Current(r)) && UniqueKinds(w.obj.conditions)
    && ChildrenBy(w.pc, w.obj.spec) <= r.children && AllTrueIn(w.obj.conditions, KnownBy(w.pc, w.obj.spec))
    && (w.pc == FinalPatch && w.obj.spec.restore ==> !FailedRestoreIn(w.obj.conditions))
  }

  /** Where such an attempt can be, and what it needs there. */
  ghost predicate Placed(r: Resource)
    requires r.hist != []
  {
    var w := r.worker;
    match w.pc
    case Idle => true
    case Gating(Announce) => Fresh(r) && w.obj == Current(r) && w.obj.phase.None?
    case Gating(Gate) => Fresh(r) ==> w.obj == Current(r)
    case Gating(GatePatch) =>
      && BothReady(w.obj.conditions) == w.obj.conditions
      && (Fresh(r) && Settled(Current(r)) ==> w.obj.conditions == Current(r).conditions)
    case Registering(pc) =>
      && pc != IgnoredPatch && !w.obj.finalizer && w.obj.conditions == Current(r).conditions
      && (Fresh(r) || Settled(Current(r)))
    case Chaining(pc) => w.obj.finalizer && (pc == EnsureRole ==> w.engineSucceeded)
    case Restoring(_) => w.obj.finalizer && w.obj.spec.restore
    case Initializing(pc) =>
      && w.obj.finalizer && !w.obj.spec.restore && w.obj.spec.init.Some?
      && (pc == MakeJob ==> !w.obj.spec.init.value.initialized)
    case FinalPatch => w.obj.finalizer
    case Deleting(_) => false
  }

  ghost predicate NoCollections(sv: Server, name: DatabaseName) {
    name in sv.databases ==> sv.databases[name] == {}
  }

  ghost predicate Hopeful(r: Resource, sv: Server) {
    && Sensible(r) && (Current(r).finalizer || NoCollections(sv, r.name))
    && (r.worker.pc != Idle ==> GoneWell(r)) && Placed(r)
  }

  /** Whether this attempt's Update is going to find the version it read still current. */
  ghost predicate WillRegister(r: Resource)
    requires r.hist != []
  {
    || Current(r).finalizer
    || match r.worker.pc
       case Idle => Settled(Current(r))
       case Gating(Announce) => false
       case Gating(_) => Fresh(r) && Settled(Current(r))
       case _ => Fresh(r)
  }

  ghost function Remaining(r: Resource): nat
    requires r.hist != []
  {
    StepsToGo(r.worker.pc) + if WillRegister(r) then 0 else 8
  }

  /** What was asked for is there, and the stored status says so. */
  ghost predicate Provided(r: Resource) {
    && r.hist != [] && Current(r).finalizer && WantedChildren(Current(r).spec) <= r.children
    && AllTrueIn(Current(r).conditions, WantedKinds(Current(r).spec))
    && (Current(r).spec.restore ==> !FailedRestoreIn(Current(r).conditions))
    && Current(r).phase == Some(PhaseOf(Current(r)))
  }

  ghost predicate CopyShows(r: Resource) {
    r.worker.pc != Idle ==>
      && AllTrueIn(r.worker.obj.conditions, WantedKinds(r.worker.obj.spec))
      && (r.worker.obj.spec.restore ==> !FailedRestoreIn(r.worker.obj.conditions))
  }

  ghost predicate Completed(r: Resource) {
    Provided(r) && CopyShows(r)
  }

  ghost predicate Onward(r: Resource, st: StepResult)
    requires r.hist != []
  {
    && Hopeful(st.resource, st.server) && st.resource.name == r.name
    && Current(st.resource).spec == Current(r).spec
    && (Completed(st.resource) || (!Completed(r) && Remaining(st.resource) < Remaining(r)))
  }

  /* ---------- condition lists only get better ---------- */

  ghost predicate Better(cs: seq<Condition>, ds: seq<Condition>) {
    && UniqueKinds(ds) && (forall k :: IsConditionTrue(cs, k) ==> IsConditionTrue(ds, k))
    && (FailedRestoreIn(ds) ==> FailedRestoreIn(cs))
  }

  lemma RecordedIsBetter(cs: seq<Condition>, kind: Kind, reason: Reason)
    requires UniqueKinds(cs) && reason != RESTORE_FAILED_REASON
    ensures var ds := Recorded(cs, kind, StatusTrue, reason);
            && Better(cs, ds) && IsConditionTrue(ds, kind)
            && (kind == RESTORE_SESSION ==> !FailedRestoreIn(ds))
  {
    var c := Condition(kind, StatusTrue, NextGeneration(cs, kind, StatusTrue), reason);
    var ds := SetCondition(cs, c);
    NextGenerationIsLocal(cs, kind, StatusTrue);
    SetKeepsUniqueKinds(cs, c);
    SetInstalls(cs, c);
    forall k
      ensures IsConditionTrue(cs, k) ==> IsConditionTrue(ds, k)
    {
      SetTrueIsMonotone(cs, c, k);
    }
    forall d | d in ds && d != c
      ensures d in cs
    {
    }
  }

  lemma ObserveIsBetter(cs: seq<Condition>, kind: Kind)
    requires UniqueKinds(cs) && kind != 10
    ensures var ds := Observe(cs, kind, true, true, []); Better(cs, ds) && IsConditionTrue(ds, kind)
  {
    RecordedIsBetter(cs, kind, Coded(kind));
  }

  lemma RestoredIsBetter(cs: seq<Condition>)
    requires UniqueKinds(cs)
    ensures var ds := ObserveRestore(cs, true, RestoreHasSucceeded, []);
            Better(cs, ds) && IsConditionTrue(ds, RESTORE_SESSION) && !FailedRestoreIn(ds)
  {
    RecordedIsBetter(cs, RESTORE_SESSION, RESTORE_SUCCEEDED_REASON);
  }

  lemma BothReadyIsBetter(cs: seq<Condition>)
    requires UniqueKinds(cs)
    ensures Better(cs, BothReady(cs)) && AllTrueIn(BothReady(cs), {DATABASE_READY, VAULT_READY})
    ensures BothReady(BothReady(cs)) == BothReady(cs)
  {
    hide Observe;
    ObserveIsBetter(cs, DATABASE_READY);
    ObserveIsBetter(Observe(cs, DATABASE_READY, true, true, []), VAULT_READY);
    BothReadyIsIdempotent(cs);
  }

  /* ---------- one generous step ---------- */

  lemma BeginOnward(r: Resource, sv: Server)
    requires Hopeful(r, sv) && r.worker.pc == Idle
    ensures Onward(r, Only(Begin(r, GenerousReply(r)), sv))
  {
    assert r.hist[|r.hist| - 1] == Current(r);
  }

  lemma AnnounceOnward(r: Resource, sv: Server, cs: seq<Condition>, p: Phase)
    requires Hopeful(r, sv) && r.worker.pc == Gating(Announce)
    ensures Onward(r, Only(GateStep(r, Done, cs, p), sv))
  {
    hide PhaseOf, UniqueKinds;
    var r' := GateStep(r, Done, cs, p);
    assert Last(r'.hist) == Current(r).(phase := Some(p), conditions := r.worker.obj.conditions);
    assert |r'.hist| == |r.hist| + 1;
  }

  lemma GateOnward(r: Resource, sv: Server, cs: seq<Condition>, p: Phase)
    requires Hopeful(r, sv) && r.worker.pc == Gating(Gate) && cs == BothReady(r.worker.obj.conditions)
    ensures Onward(r, Only(GateStep(r, HEALTHY, cs, p), sv))
  {
    hide BothReady, PhaseOf, UniqueKinds, FailedRestoreIn;
    BothReadyIsBetter(r.worker.obj.conditions);
  }

  lemma RouteOfHopeful(v: Version)
    requires !v.deleting
    ensures Route(v) == if v.finalizer then Chaining(EnsureEngine) else Registering(ListCollections)
  {
  }

  lemma GatePatchOnward(r: Resource, sv: Server, cs: seq<Condition>, p: Phase)
    requires Hopeful(r, sv) && r.worker.pc == Gating(GatePatch) && p == PhaseOf(r.worker.obj)
    ensures Onward(r, Only(GateStep(r, Done, cs, p), sv))
  {
    hide UniqueKinds, FailedRestoreIn, BothReady, GetPhaseFromCondition, Route;
    var r' := GateStep(r, Done, cs, p);
    var v := Current(r).(phase := Some(p), conditions := r.worker.obj.conditions);
    RouteOfHopeful(r.worker.obj);
    assert Current(r') == v;
    assert PhaseOf(v) == p;
    assert Settled(v);
  }

  lemma ListOnward(u: UID, r: Resource, sv: Server)
    requires Hopeful(r, sv) && (r.worker.pc == Registering(ListCollections) || r.worker.pc == Registering(UpsertEntry))
    ensures Onward(r, RegisterStep(u, r, sv, Done))
  {
    hide UniqueKinds, FailedRestoreIn, BothReady, PhaseOf, WantedKinds, WantedChildren;
  }

  lemma FinalizerOnward(u: UID, r: Resource, sv: Server)
    requires Hopeful(r, sv) && r.worker.pc == Registering(AddFinalizer)
    ensures Onward(r, RegisterStep(u, r, sv, Done))
  {
    hide UniqueKinds, FailedRestoreIn, BothReady, PhaseOf, WantedKinds, WantedChildren;
    var r' := RegisterStep(u, r, sv, Done).resource;
    if Fresh(r) {
      assert Current(r') == Current(r).(finalizer := true);
    }
  }

  lemma RegisterOnward(u: UID, r: Resource, sv: Server)
    requires Hopeful(r, sv) && r.worker.pc.Registering?
    ensures Onward(r, RegisterStep(u, r, sv, Done))
  {
    hide Onward, Sensible, GoneWell, RegisterStep;
    if r.worker.pc == Registering(AddFinalizer) {
      FinalizerOnward(u, r, sv);
    } else {
      ListOnward(u, r, sv);
    }
  }

  /** A step of the chain of children: no version is written, the copy gets better. */
  lemma PutOnward(r: Resource, r': Resource, sv: Server, notes: seq<Note>, pc: Pc)
    requires Hopeful(r, sv) && (r.worker.pc.Chaining? || r.worker.pc.Restoring? || r.worker.pc.Initializing?)
    requires r' == r.(children := r'.children, subjects := r'.subjects, worker := r'.worker)
    requires r'.worker.pc == pc && r'.worker.obj == r.worker.obj.(conditions := r'.worker.obj.conditions)
    requires r.children <= r'.children && ChildrenBy(pc, r.worker.obj.spec) <= r'.children
    requires Better(r.worker.obj.conditions, r'.worker.obj.conditions)
    requires AllTrueIn(r'.worker.obj.conditions, KnownBy(pc, r.worker.obj.spec))
    requires pc == FinalPatch && r.worker.obj.spec.restore ==> !FailedRestoreIn(r'.worker.obj.conditions)
    requires Placed(r') && pc != Idle && !pc.Registering? && !pc.Gating? && StepsToGo(pc) < StepsToGo(r.worker.pc)
    ensures Onward(r, StepResult(r', sv, notes))
  {
    hide UniqueKinds, FailedRestoreIn, PhaseOf, WantedKinds, WantedChildren, ChildrenBy, KnownBy;
  }

  lemma SameIsBetter(cs: seq<Condition>)
    requires UniqueKinds(cs)
    ensures Better(cs, cs)
  {
  }

  /** Recording a look at something healthy. */
  lemma RecordOnward(r: Resource, r': Resource, sv: Server, notes: seq<Note>, pc: Pc, kind: Kind)
    requires Hopeful(r, sv) && (r.worker.pc.Chaining? || r.worker.pc.Restoring? || r.worker.pc.Initializing?)
    requires r' == r.(children := r'.children, subjects := r'.subjects, worker := r'.worker)
    requires r'.worker.pc == pc && r'.worker.obj == r.worker.obj.(conditions := Observe(r.worker.obj.conditions, kind, true, true, []))
    requires r.children <= r'.children && ChildrenBy(pc, r.worker.obj.spec) <= r'.children && kind != 10
    requires KnownBy(pc, r.worker.obj.spec) <= KnownBy(r.worker.pc, r.worker.obj.spec) + {kind}
    requires pc == FinalPatch ==> !r.worker.obj.spec.restore
    requires Placed(r') && pc != Idle && !pc.Registering? && !pc.Gating? && StepsToGo(pc) < StepsToGo(r.worker.pc)
    ensures Onward(r, StepResult(r', sv, notes))
  {
    ObserveIsBetter(r.worker.obj.conditions, kind);
    hide Onward, Observe, FailedRestoreIn, Placed, KnownBy, ChildrenBy, StepsToGo;
    PutOnward(r, r', sv, notes, pc);
  }

  /** Going on without a look. */
  lemma MoveOnward(r: Resource, r': Resource, sv: Server, notes: seq<Note>, pc: Pc)
    requires Hopeful(r, sv) && (r.worker.pc.Chaining? || r.worker.pc.Restoring? || r.worker.pc.Initializing?)
    requires r' == At(r.(children := r'.children), pc)
    requires r.children <= r'.children && ChildrenBy(pc, r.worker.obj.spec) <= r'.children && pc != FinalPatch
    requires KnownBy(pc, r.worker.obj.spec) <= KnownBy(r.worker.pc, r.worker.obj.spec)
    requires Placed(r') && pc != Idle && !pc.Registering? && !pc.Gating? && StepsToGo(pc) < StepsToGo(r.worker.pc)
    ensures Onward(r, StepResult(r', sv, notes))
  {
    SameIsBetter(r.worker.obj.conditions);
    hide Onward, FailedRestoreIn, Placed, KnownBy, ChildrenBy, StepsToGo, Better;
    PutOnward(r, r', sv, notes, pc);
  }

  lemma EngineOnward(r: Resource, sv: Server, cs: seq<Condition>)
    requires Hopeful(r, sv) && r.worker.pc == Chaining(EnsureEngine)
    requires cs == Observe(r.worker.obj.conditions, SECRET_ENGINE_READY, true, true, [])
    ensures Onward(r, Only(ChainStep(r, GRANTED, cs), sv))
  {
    hide Onward, Observe, Sensible;
    RecordOnward(r, ChainStep(r, GRANTED, cs), sv, [], Chaining(EnsureRole), SECRET_ENGINE_READY);
  }

  lemma RoleOnward(r: Resource, sv: Server, cs: seq<Condition>)
    requires Hopeful(r, sv) && r.worker.pc == Chaining(EnsureRole)
    requires cs == Observe(r.worker.obj.conditions, ROLE_READY, true, true, [])
    ensures Onward(r, Only(ChainStep(r, GRANTED, cs), sv))
  {
    hide Onward, Observe, Sensible;
    RecordOnward(r, ChainStep(r, GRANTED, cs), sv, [], Chaining(EnsureAccount), ROLE_READY);
  }

  lemma RequestOnward(r: Resource, sv: Server, cs: seq<Condition>)
    requires Hopeful(r, sv) && r.worker.pc == Chaining(EnsureRequest)
    requires cs == if r.worker.obj.spec.autoApproval then r.worker.obj.conditions
                   else Observe(r.worker.obj.conditions, ACCESS_REQUEST_READY, true, true, [])
    ensures Onward(r, Only(ChainStep(r, GRANTED, cs), sv))
  {
    hide Onward, Observe, Sensible, WithSubject;
    var r' := ChainStep(r, GRANTED, cs);
    if r.worker.obj.spec.autoApproval {
      SameIsBetter(r.worker.obj.conditions);
      PutOnward(r, r', sv, [], Chaining(Approve));
    } else {
      RecordOnward(r, r', sv, [], Chaining(GetCredential), ACCESS_REQUEST_READY);
    }
  }

  lemma ApproveOnward(r: Resource, sv: Server, cs: seq<Condition>)
    requires Hopeful(r, sv) && r.worker.pc == Chaining(Approve)
    requires cs == Observe(r.worker.obj.conditions, ACCESS_REQUEST_READY, true, true, [])
    ensures Onward(r, Only(ChainStep(r, GRANTED, cs), sv))
  {
    hide Onward, Observe, Sensible;
    RecordOnward(r, ChainStep(r, GRANTED, cs), sv, [], Chaining(GetCredential), ACCESS_REQUEST_READY);
  }

  lemma AccountOnward(r: Resource, sv: Server, cs: seq<Condition>)
    requires Hopeful(r, sv) && (r.worker.pc == Chaining(EnsureAccount) || r.worker.pc == Chaining(GetCredential))
    ensures Onward(r, Only(ChainStep(r, Done, cs), sv))
  {
    hide Onward;
    var r' := ChainStep(r, Done, cs);
    MoveOnward(r, r', sv, [], r'.worker.pc);
  }

  lemma ChainOnward(r: Resource, sv: Server, cs: seq<Condition>)
    requires Hopeful(r, sv) && r.worker.pc.Chaining? && cs == Noted(r.worker, GenerousReply(r))
    ensures Onward(r, Only(ChainStep(r, GenerousReply(r), cs), sv))
  {
    hide Onward, Observe, Sensible, GoneWell, Placed, ChainStep;
    match r.worker.pc.chain {
      case EnsureEngine => EngineOnward(r, sv, cs);
      case EnsureRole => RoleOnward(r, sv, cs);
      case EnsureRequest => RequestOnward(r, sv, cs);
      case Approve => ApproveOnward(r, sv, cs);
      case _ => AccountOnward(r, sv, cs);
    }
  }

  lemma FoundOnward(r: Resource, sv: Server, cs: seq<Condition>, kind: Kind)
    requires Hopeful(r, sv)
    requires (r.worker.pc == Restoring(CopyRepositorySecret) && kind == REPOSITORY_FOUND)
          || (r.worker.pc == Restoring(EnsureAppBinding) && kind == APPBINDING_FOUND)
    requires cs == Observe(r.worker.obj.conditions, kind, true, true, [])
    ensures Onward(r, Only(RestoreStep(r, GRANTED, cs), sv))
  {
    hide Onward, Observe, Sensible;
    var r' := RestoreStep(r, GRANTED, cs);
    RecordOnward(r, r', sv, [], r'.worker.pc, kind);
  }

  lemma CopyOnward(r: Resource, sv: Server, cs: seq<Condition>)
    requires Hopeful(r, sv) && (r.worker.pc == Restoring(CopyRepository) || r.worker.pc == Restoring(CopyAuthSecret))
    ensures Onward(r, Only(RestoreStep(r, Done, cs), sv))
  {
    hide Onward;
    var r' := RestoreStep(r, Done, cs);
    MoveOnward(r, r', sv, [], r'.worker.pc);
  }

  lemma SessionOnward(r: Resource, sv: Server, cs: seq<Condition>)
    requires Hopeful(r, sv) && r.worker.pc == Restoring(EnsureRestore)
    requires cs == ObserveRestore(r.worker.obj.conditions, true, RestoreHasSucceeded, [])
    ensures Onward(r, Only(RestoreStep(r, GenerousReply(r), cs), sv))
  {
    RestoredIsBetter(r.worker.obj.conditions);
    hide Onward, ObserveRestore, Sensible, FailedRestoreIn;
    PutOnward(r, RestoreStep(r, GenerousReply(r), cs), sv, [], FinalPatch);
  }

  lemma RestoreOnward(r: Resource, sv: Server, cs: seq<Condition>)
    requires Hopeful(r, sv) && r.worker.pc.Restoring? && cs == Noted(r.worker, GenerousReply(r))
    ensures Onward(r, Only(RestoreStep(r, GenerousReply(r), cs), sv))
  {
    hide Onward, Observe, ObserveRestore, Sensible, GoneWell, Placed, RestoreStep;
    match r.worker.pc.restore {
      case CopyRepositorySecret => FoundOnward(r, sv, cs, REPOSITORY_FOUND);
      case EnsureAppBinding => FoundOnward(r, sv, cs, APPBINDING_FOUND);
      case EnsureRestore => SessionOnward(r, sv, cs);
      case _ => CopyOnward(r, sv, cs);
    }
  }

  lemma ReadJobOnward(u: UID, r: Resource, sv: Server, cs: seq<Condition>)
    requires Hopeful(r, sv) && r.worker.pc == Initializing(ReadJob)
    requires cs == Observe(r.worker.obj.conditions, JOB_COMPLETED, true, true, [])
    ensures Onward(r, JobStep(u, r, sv, GRANTED, cs))
  {
    hide Onward, Observe, Sensible;
    var st := JobStep(u, r, sv, GRANTED, cs);
    RecordOnward(r, st.resource, sv, st.notes, st.resource.worker.pc, JOB_COMPLETED);
  }

  lemma MakeJobOnward(u: UID, r: Resource, sv: Server, cs: seq<Condition>)
    requires Hopeful(r, sv) && r.worker.pc == Initializing(MakeJob)
    requires cs == Observe(r.worker.obj.conditions, JOB_COMPLETED, true, true, [])
    ensures Onward(r, JobStep(u, r, sv, GRANTED, cs))
  {
    hide Onward, Observe, Sensible;
    var st := JobStep(u, r, sv, GRANTED, cs);
    if r.worker.obj.spec.init.value.hasScript {
      RecordOnward(r, st.resource, sv, st.notes, FinalPatch, JOB_COMPLETED);
    } else {
      SameIsBetter(r.worker.obj.conditions);
      PutOnward(r, st.resource, sv, st.notes, FinalPatch);
    }
  }

  lemma JobOnward(u: UID, r: Resource, sv: Server, cs: seq<Condition>)
    requires Hopeful(r, sv) && r.worker.pc.Initializing? && cs == Noted(r.worker, GenerousReply(r))
    ensures Onward(r, JobStep(u, r, sv, GenerousReply(r), cs))
  {
    hide Onward, Observe, Sensible, GoneWell, Placed, JobStep;
    match r.worker.pc.job {
      case ReadJob => ReadJobOnward(u, r, sv, cs);
      case MakeJob => MakeJobOnward(u, r, sv, cs);
    }
  }

  lemma FinalOnward(u: UID, r: Resource, sv: Server, p: Phase)
    requires Hopeful(r, sv) && r.worker.pc == FinalPatch && p == PhaseOf(r.worker.obj)
    ensures Onward(r, FinalStep(u, r, sv, Done, p))
  {
    hide UniqueKinds, FailedRestoreIn, GetPhaseFromCondition, WantedKinds, WantedChildren;
    var r' := FinalStep(u, r, sv, Done, p).resource;
    var v := Current(r).(phase := Some(p), conditions := r.worker.obj.conditions);
    assert Current(r') == v;
    assert PhaseOf(v) == p;
  }

  lemma StepOnward(u: UID, r: Resource, sv: Server)
    requires Hopeful(r, sv)
    ensures Onward(r, Step(u, r, sv, GenerousReply(r)))
  {
    hide Onward, GateStep, RegisterStep, ChainStep, RestoreStep, JobStep, FinalStep, BothReady, GoneWell, Sensible;
    assert r.hist != [] by { SensibleHasHistory(r); }
    var cs, p := Noted(r.worker, GenerousReply(r)), PhaseOf(r.worker.obj);
    match r.worker.pc {
      case Idle => BeginOnward(r, sv);
      case Gating(Announce) => AnnounceOnward(r, sv, cs, p);
      case Gating(Gate) => NotedIsBothReady(r); GateOnward(r, sv, cs, p);
      case Gating(GatePatch) => GatePatchOnward(r, sv, cs, p);
      case Registering(_) => RegisterOnward(u, r, sv);
      case Chaining(_) => ChainOnward(r, sv, cs);
      case Restoring(_) => RestoreOnward(r, sv, cs);
      case Initializing(_) => JobOnward(u, r, sv, cs);
      case FinalPatch => FinalOnward(u, r, sv, p);
    }
  }

  lemma SensibleHasHistory(r: Resource)
    requires Sensible(r)
    ensures r.hist != []
  {
  }

  lemma NotedIsBothReady(r: Resource)
    requires r.hist != [] && r.worker.pc == Gating(Gate)
    ensures Noted(r.worker, GenerousReply(r)) == BothReady(r.worker.obj.conditions)
  {
    hide Observe;
  }

  /* ---------- runs ---------- */

  /** An event that leaves the provisioning of `u` undisturbed: about another resource or a database
      of another name, or a generous step of its own worker. */
  ghost predicate Kind(s: State, u: UID, e: Event) {
    u in s.resources && s.resources[u].hist != [] &&
    if e.WriteDatabase? then e.name != s.resources[u].name
    else e.uid == u ==> e.Act? && e.reply == GenerousReply(s.resources[u])
  }

  ghost predicate Kindly(s: State, u: UID, events: seq<Event>) {
    events == [] || (Kindly(s, u, Front(events)) && Kind(Run(s, Front(events)), u, Last(events)))
  }

  /** Done, or at most `n` generous steps to go. */
  ghost predicate Nearly(s: State, u: UID, name: DatabaseName, spec: Spec, n: int) {
    u in s.resources &&
    var r := s.resources[u];
    && Hopeful(r, s.server) && r.name == name && Current(r).spec == spec
    && (Completed(r) || Remaining(r) <= n)
  }

  lemma OwnStepNearer(s: State, u: UID, name: DatabaseName, spec: Spec, e: Event, n: int)
    requires Inv(s) && Nearly(s, u, name, spec, n) && IsAct(e, u) && Kind(s, u, e)
    ensures Nearly(Apply(s, e), u, name, spec, n - 1)
  {
    var r := s.resources[u];
    StepOnward(u, r, s.server);
    hide Step, Hopeful, Completed, Remaining, Inv;
  }

  /** Databases only lose collections, as far as workers are concerned. */
  lemma WorkersOnlyDrop(u: UID, r: Resource, sv: Server, reply: Reply, name: DatabaseName)
    requires r.hist != [] && NoCollections(sv, name)
    ensures NoCollections(Step(u, r, sv, reply).server, name)
  {
    hide GateStep, ChainStep, RestoreStep, SchemaProtocol.Noted, PhaseOf, PatchStatus;
  }

  lemma OthersStayClear(s: State, u: UID, name: DatabaseName, spec: Spec, e: Event, n: int)
    requires Inv(s) && Nearly(s, u, name, spec, n) && !IsAct(e, u) && Kind(s, u, e)
    ensures Nearly(Apply(s, e), u, name, spec, n)
  {
    OthersLeaveItAlone(s, u, e);
    ServerStaysEmpty(s, u, e);
    hide Sensible, GoneWell, Placed, Completed, Remaining, Inv, Apply;
  }

  lemma ServerStaysEmpty(s: State, u: UID, e: Event)
    requires u in s.resources && Kind(s, u, e) && !IsAct(e, u)
    ensures NoCollections(s.server, s.resources[u].name) ==> NoCollections(Apply(s, e).server, s.resources[u].name)
  {
    hide Step, UserStep;
    if e.Act? && e.uid in s.resources && s.resources[e.uid].hist != [] && NoCollections(s.server, s.resources[u].name) {
      WorkersOnlyDrop(e.uid, s.resources[e.uid], s.server, e.reply, s.resources[u].name);
    }
  }

  lemma {:induction false} KindRunProvides(s: State, u: UID, name: DatabaseName, spec: Spec, events: seq<Event>, n: int)
    requires Inv(s) && Nearly(s, u, name, spec, n) && Kindly(s, u, events)
    ensures Inv(Run(s, events)) && Nearly(Run(s, events), u, name, spec, n - Acts(u, events))
  {
    hide Inv, Nearly, Apply, Kind;
    if events != [] {
      var before, e := Run(s, Front(events)), Last(events);
      KindRunProvides(s, u, name, spec, Front(events), n);
      ApplyKeepsInv(before, e);
      if IsAct(e, u) {
        OwnStepNearer(before, u, name, spec, e, n - Acts(u, Front(events)));
      } else {
        OthersStayClear(before, u, name, spec, e, n - Acts(u, Front(events)));
      }
    }
  }

  lemma IdleIsNearly(s: State, u: UID)
    requires Inv(s) && u in s.resources
    requires var r := s.resources[u];
             && r.hist != [] && r.alive && r.worker.pc == Idle && !Current(r).deleting
             && (Current(r).spec.restore || Current(r).spec.init.Some?)
             && (Current(r).finalizer || NoCollections(s.server, r.name))
    ensures Nearly(s, u, s.resources[u].name, Current(s.resources[u]).spec, 27)
  {
    var r := s.resources[u];
    assert ResourceInv(u, r, s.server.entries, s.log);
    assert Current(r) in r.hist;
  }

  /** Twenty-seven generous steps of its worker provide a resource between two attempts of any run
      with everything it asks for: the finalizer; engine, role, account and request; with restore the
      repository and its secret, the auth secret, the binding and the session; without it the init
      job, if there is a script and it is not initialized yet. The stored conditions are true, and the
      phase is final: Succeeded, or Failed only for a failed restore recorded earlier. */
  lemma ProvisioningCompletes(databases: map<DatabaseName, set<string>>, events: seq<Event>, u: UID, rest: seq<Event>,
                              s: State, t: State)
    requires s == Run(Start(databases), events) && t == Run(s, rest) && u in s.resources
    requires var r := s.resources[u];
             && r.hist != [] && r.alive && r.worker.pc == Idle && !Current(r).deleting
             && (Current(r).spec.restore || Current(r).spec.init.Some?)
             && (Current(r).finalizer || (r.name in s.server.databases ==> s.server.databases[r.name] == {}))
    requires Kindly(s, u, rest) && Acts(u, rest) >= 27
    ensures u in t.resources && t.resources[u].hist != []
    ensures var spec, r := Current(s.resources[u]).spec, t.resources[u];
            var v := Current(r);
            && v.finalizer && v.spec == spec && {SecretEngine, Role, ServiceAccount, AccessRequest} <= r.children
            && (spec.restore ==> {Repository, RepositorySecret, AuthSecret, AppBinding, RestoreSession} <= r.children)
            && (!spec.restore && !spec.init.value.initialized && spec.init.value.hasScript ==> Job in r.children)
            && FiveReady(v.conditions)
            && (if spec.restore then RestoreReady(v.conditions) else IsConditionTrue(v.conditions, JOB_COMPLETED))
            && v.phase == Some(if !spec.restore && FailedRestoreIn(v.conditions) then Failed else Succeeded)
  {
    RunKeepsInv(databases, events);
    IdleIsNearly(s, u);
    var name, spec := s.resources[u].name, Current(s.resources[u]).spec;
    KindRunReaches(s, u, name, spec, rest, t);
    ProvidedShows(t.resources[u]);
  }

  lemma KindRunReaches(s: State, u: UID, name: DatabaseName, spec: Spec, rest: seq<Event>, t: State)
    requires Inv(s) && Nearly(s, u, name, spec, 27) && Kindly(s, u, rest) && Acts(u, rest) >= 27 && t == Run(s, rest)
    ensures u in t.resources && t.resources[u].hist != []
    ensures Provided(t.resources[u]) && Current(t.resources[u]).spec == spec && UniqueKinds(Current(t.resources[u]).conditions)
  {
    hide *;
    KindRunProvides(s, u, name, spec, rest, 27);
    NearlyIsProvided(t, u, name, spec, 27 - Acts(u, rest));
  }

  lemma NearlyIsProvided(t: State, u: UID, name: DatabaseName, spec: Spec, n: int)
    requires Nearly(t, u, name, spec, n) && n <= 0
    ensures u in t.resources && t.resources[u].hist != []
    ensures Provided(t.resources[u]) && Current(t.resources[u]).spec == spec && UniqueKinds(Current(t.resources[u]).conditions)
  {
    hide GoneWell, Placed, Provided, WillRegister;
  }

  lemma ProvidedShows(r: Resource)
    requires Provided(r) && UniqueKinds(Current(r).conditions)
    ensures var v := Current(r);
            && FiveReady(v.conditions)
            && (if v.spec.restore then RestoreReady(v.conditions) else IsConditionTrue(v.conditions, JOB_COMPLETED))
            && v.phase == Some(if !v.spec.restore && FailedRestoreIn(v.conditions) then Failed else Succeeded)
  {
    var cs := Current(r).conditions;
    hide IsConditionTrue, HasCondition, FailedRestoreIn, UniqueKinds, RestoreVerdict;
    VerdictIsMembership(cs);
    TrueIsThere(cs);
  }

  lemma TrueIsThere(cs: seq<Condition>)
    ensures forall k :: IsConditionTrue(cs, k) ==> HasCondition(cs, k)
  {
  }
}
