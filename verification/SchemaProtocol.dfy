/** The schema manager as a step system.

    Each resource has one worker. A worker step is one API call or one Mongo command together
    with the bookkeeping the code does around it; a reply says how the call went. Between two
    steps of a worker anything else may happen: steps of other workers, edits and deletions by
    users, writers to ordinary databases, a crash that sends a worker back to idle.

    Reads go through a cache: a worker may read any version of its resource that is not older
    than the one it read before. Updates carry the version read and fail if it is not current. */
module SchemaProtocol {
  import opened Common
  import opened Conditions
  import opened SchemaStatus

  type UID = string

  /** The controller's own database, kubedb-system, or any other one. */
  datatype DatabaseName = System | Ordinary(name: string)

  /* ---------- the stored resource ---------- */

  datatype DeletionPolicy = PolicyDelete | PolicyDoNotDelete | PolicyUnset

  datatype InitSpec = InitSpec(initialized: bool, hasScript: bool)

  datatype Spec = Spec(policy: DeletionPolicy, restore: bool, autoApproval: bool, init: Option<InitSpec>)

  /** One version of a MongoDBDatabase object as the API server stores it. */
  datatype Version = Version(
    deleting: bool,
    finalizer: bool,
    spec: Spec,
    phase: Option<Phase>,
    conditions: seq<Condition>)

  datatype Child =
    | SecretEngine | Role | ServiceAccount | AccessRequest
    | Repository | RepositorySecret | AuthSecret | AppBinding | RestoreSession
    | Job

  /* ---------- the worker ---------- */

  // getMongoDBAndVaultServer
  datatype GatePc = Announce | Gate | GatePatch
  // ensureOrDeleteFinalizer: registration, deletion
  datatype RegisterPc = ListCollections | IgnoredPatch | UpsertEntry | AddFinalizer
  datatype DeletePc = FindEntry | DropDatabase | DeleteEntry | RemoveFinalizer
  // runMongoSchema: the common chain, the restore branch, the init branch
  datatype ChainPc = EnsureEngine | EnsureRole | EnsureAccount | EnsureRequest | Approve | GetCredential
  datatype RestorePc = CopyRepository | CopyRepositorySecret | CopyAuthSecret | EnsureAppBinding | EnsureRestore
  datatype JobPc = ReadJob | MakeJob

  datatype Pc =
    | Idle
    | Gating(gate: GatePc)
    | Registering(register: RegisterPc)
    | Deleting(delete: DeletePc)
    | Chaining(chain: ChainPc)
    | Restoring(restore: RestorePc)
    | Initializing(job: JobPc)
    | FinalPatch

  /** The worker's copy of the object, the version it was read at, and two local variables. */
  datatype Worker = Worker(pc: Pc, obj: Version, base: nat, engineSucceeded: bool, sawJob: bool)

  datatype Resource = Resource(
    name: DatabaseName,       // spec.databaseSchema.name, immutable
    account: string,          // name of the service account derived from the object's name
    hist: seq<Version>,       // every version so far, the current one last
    alive: bool,              // false once the API server has removed the object
    otherFinalizers: bool,
    seen: nat,                // the cache never goes back behind this version
    worker: Worker,
    children: set<Child>,
    subjects: seq<string>)    // subject names of the access request

  datatype Entry = Entry(uid: UID, name: DatabaseName)

  /** The Mongo server: collections per database, and the ownership entries. */
  datatype Server = Server(databases: map<DatabaseName, set<string>>, entries: set<Entry>)

  /** What happened, for statements about whole runs. */
  datatype Note =
    | Listed(uid: UID, name: DatabaseName, empty: bool)
    | Registered(uid: UID, name: DatabaseName)
    | Dropped(uid: UID, name: DatabaseName)
    | EntryDeleted(uid: UID, name: DatabaseName)
    | FindFailed(uid: UID, entryThere: bool)
    | Released(uid: UID, entryLeft: bool)
    | JobMade(uid: UID, restore: bool)
    | Concluded(uid: UID, restore: bool, sawJob: bool, phase: Phase, conditions: seq<Condition>)

  datatype State = State(resources: map<UID, Resource>, server: Server, log: seq<Note>)

  /* ---------- replies and events ---------- */

  datatype RestorePhase = RestoreIsRunning | RestoreHasSucceeded | RestoreHasFailed

  datatype Reply =
    | Read(version: nat)
    | Done
    | Error
    /** FindOne failed for another reason than a missing document. */
    | FindError
    /** Both servers were fetched: found, healthy, phase ready. */
    | Servers(mongoFound: bool, mongoHealthy: bool, vaultFound: bool, vaultHealthy: bool, ready: bool, error: string)
    /** A child was ensured and read back. */
    | Ensured(found: bool, healthy: bool, succeeded: bool, error: string)
    | Restored(found: bool, outcome: RestorePhase, error: string)

  datatype Event =
    | Act(uid: UID, reply: Reply)
    | Crash(uid: UID)
    | Create(uid: UID, name: DatabaseName, account: string, spec: Spec, otherFinalizers: bool)
    | Edit(uid: UID, spec: Spec)
    | RequestDeletion(uid: UID)
    | ReleaseOtherFinalizers(uid: UID)
    | AddSubject(uid: UID, subject: string)
    | WriteDatabase(name: DatabaseName, collections: set<string>)

  /* ---------- helpers of the worker ---------- */

  function Current(r: Resource): Version
    requires r.hist != []
  {
    Last(r.hist)
  }

  function At(r: Resource, pc: Pc): Resource {
    r.(worker := r.worker.(pc := pc))
  }

  function Put(r: Resource, pc: Pc, conditions: seq<Condition>): Resource {
    r.(worker := r.worker.(pc := pc, obj := r.worker.obj.(conditions := conditions)))
  }

  /** PatchStatus: the in-memory status goes onto the current object. A patch that changes
      nothing makes no new version. The worker's copy keeps the version it was read at. */
  function PatchStatus(r: Resource): Resource
    requires r.hist != []
  {
    var v := Current(r).(phase := r.worker.obj.phase, conditions := r.worker.obj.conditions);
    if v == Current(r) then r else r.(hist := r.hist + [v])
  }

  /** Update succeeds only on the version that was read. */
  predicate UpdateAccepted(r: Resource) {
    r.alive && r.worker.base + 1 == |r.hist|
  }

  function WithPhase(r: Resource, p: Phase): Resource {
    r.(worker := r.worker.(obj := r.worker.obj.(phase := Some(p))))
  }

  function PhaseOf(v: Version): Phase {
    GetPhaseFromCondition(v.conditions, v.spec.restore)
  }

  /** A condition set from a fresh read of its object: the error as reason when the read fails. */
  function Observe(cs: seq<Condition>, kind: Kind, found: bool, healthy: bool, error: string): seq<Condition> {
    if !found then Recorded(cs, kind, StatusFalse, ErrorText(error))
    else if !healthy then Recorded(cs, kind, StatusFalse, Coded(kind))
    else Recorded(cs, kind, StatusTrue, Coded(kind))
  }

  function ObserveRestore(cs: seq<Condition>, found: bool, outcome: RestorePhase, error: string): seq<Condition> {
    if !found then Recorded(cs, RESTORE_SESSION, StatusFalse, ErrorText(error))
    else match outcome
      case RestoreHasFailed => Recorded(cs, RESTORE_SESSION, StatusTrue, RESTORE_FAILED_REASON)
      case RestoreHasSucceeded => Recorded(cs, RESTORE_SESSION, StatusTrue, RESTORE_SUCCEEDED_REASON)
      case RestoreIsRunning => Recorded(cs, RESTORE_SESSION, StatusFalse, RESTORE_SUCCEEDED_REASON)
  }

  /** Where ensureOrDeleteFinalizer sends a run. */
  function Route(v: Version): Pc {
    if !v.deleting then if v.finalizer then Chaining(EnsureEngine) else Registering(ListCollections)
    else if v.spec.policy == PolicyDelete then if v.finalizer then Deleting(FindEntry) else Idle
    else Chaining(EnsureEngine)
  }

  /** The subjects of the access request after the transform: the account once added stays. */
  function WithSubject(subjects: seq<string>, account: string): seq<string> {
    if account in subjects then subjects else subjects + [account]
  }

  function AfterApproval(approved: bool): Pc {
    if approved then Chaining(GetCredential) else FinalPatch
  }

  /** The in-memory condition list after a step: what the step looked at is recorded in it. */
  function Noted(w: Worker, reply: Reply): seq<Condition> {
    var cs := w.obj.conditions;
    match reply
    case Servers(mongoFound, mongoHealthy, vaultFound, vaultHealthy, _, error) =>
      Observe(Observe(cs, DATABASE_READY, mongoFound, mongoHealthy, error), VAULT_READY, vaultFound, vaultHealthy, error)
    case Ensured(found, healthy, _, error) =>
      if w.pc == Chaining(EnsureEngine) then Observe(cs, SECRET_ENGINE_READY, found, healthy, error)
      else if w.pc == Chaining(EnsureRole) then Observe(cs, ROLE_READY, found, healthy, error)
      else if (w.pc == Chaining(EnsureRequest) && !w.obj.spec.autoApproval) || w.pc == Chaining(Approve) then
        Observe(cs, ACCESS_REQUEST_READY, found, healthy, error)
      else if w.pc == Restoring(CopyRepositorySecret) then Observe(cs, REPOSITORY_FOUND, found, true, error)
      else if w.pc == Restoring(EnsureAppBinding) then Observe(cs, APPBINDING_FOUND, found, true, error)
      else if w.pc.Initializing? then Observe(cs, JOB_COMPLETED, found, healthy, error)
      else cs
    case Restored(found, outcome, error) => ObserveRestore(cs, found, outcome, error)
    case _ => cs
  }

  /* ---------- one worker step ---------- */

  datatype StepResult = StepResult(resource: Resource, server: Server, notes: seq<Note>)

  function Only(r: Resource, sv: Server): StepResult {
    StepResult(r, sv, [])
  }

  function Begin(r: Resource, reply: Reply): Resource
    requires r.hist != []
  {
    if reply.Read? && r.seen <= reply.version < |r.hist| then
      var v := r.hist[reply.version];
      r.(seen := reply.version,
         worker := Worker(if v.phase.None? then Gating(Announce) else Gating(Gate), v, reply.version, false, false))
    else r
  }

  /** getMongoDBAndVaultServer: `cs` is the condition list after the step, `p` the phase to show. */
  function GateStep(r: Resource, reply: Reply, cs: seq<Condition>, p: Phase): Resource
    requires r.hist != []
  {
    var w := r.worker;
    if w.pc == Gating(Announce) && reply == Done && r.alive then At(PatchStatus(WithPhase(r, p)), Gating(Gate))
    else if w.pc == Gating(Gate) && reply.Servers? && reply.mongoFound && reply.vaultFound && reply.ready then
      Put(r, Gating(GatePatch), cs)
    else if w.pc == Gating(GatePatch) && reply == Done && r.alive then At(PatchStatus(WithPhase(r, p)), Route(w.obj))
    else At(r, Idle)
  }

  /** ensureEntryIntoDatabase, then the finalizer. */
  function RegisterStep(u: UID, r: Resource, sv: Server, reply: Reply): StepResult
    requires r.hist != []
  {
    var w := r.worker;
    if reply != Done then Only(At(r, Idle), sv)
    else if w.pc == Registering(ListCollections) then
      var empty := r.name !in sv.databases || sv.databases[r.name] == {};
      StepResult(At(r, if empty then Registering(UpsertEntry) else Registering(IgnoredPatch)), sv, [Listed(u, r.name, empty)])
    else if w.pc == Registering(IgnoredPatch) then
      Only(At(if r.alive then PatchStatus(WithPhase(r, Ignored)) else r, Idle), sv)
    else if w.pc == Registering(UpsertEntry) then
      StepResult(At(r, Registering(AddFinalizer)), sv.(entries := sv.entries + {Entry(u, r.name)}), [Registered(u, r.name)])
    else if w.pc == Registering(AddFinalizer) && UpdateAccepted(r) then
      var v := Current(r).(finalizer := true);
      Only(r.(hist := r.hist + [v], worker := w.(pc := Chaining(EnsureEngine), obj := v, base := |r.hist|)), sv)
    else Only(At(r, Idle), sv)
  }

  function DropIn(sv: Server, name: DatabaseName): Server {
    Server(sv.databases - {name}, if name == System then {} else sv.entries)
  }

  /** doExternalThingsBeforeDelete, then the finalizer. */
  function DeleteStep(u: UID, r: Resource, sv: Server, reply: Reply): StepResult
    requires r.hist != []
  {
    var w := r.worker;
    var entry := Entry(u, r.name);
    if w.pc == Deleting(FindEntry) && reply == FindError then
      // the code only asks whether FindOne had an error, not which one
      StepResult(At(r, Deleting(RemoveFinalizer)), sv, [FindFailed(u, entry in sv.entries)])
    else if reply != Done then Only(At(r, Idle), sv)
    else if w.pc == Deleting(FindEntry) then
      Only(At(r, if entry in sv.entries then Deleting(DropDatabase) else Deleting(RemoveFinalizer)), sv)
    else if w.pc == Deleting(DropDatabase) then
      StepResult(At(r, Deleting(DeleteEntry)), DropIn(sv, r.name), [Dropped(u, r.name)])
    else if w.pc == Deleting(DeleteEntry) then
      StepResult(At(r, Deleting(RemoveFinalizer)), sv.(entries := sv.entries - {entry}), [EntryDeleted(u, r.name)])
    else if w.pc == Deleting(RemoveFinalizer) && UpdateAccepted(r) then
      var v := Current(r).(finalizer := false);
      StepResult(At(r.(hist := r.hist + [v], alive := r.otherFinalizers), Idle), sv, [Released(u, entry in sv.entries)])
    else Only(At(r, Idle), sv)
  }

  /** runMongoSchema up to the credential: any error goes straight to the final status patch. */
  function ChainStep(r: Resource, reply: Reply, cs: seq<Condition>): Resource {
    var w := r.worker;
    if w.pc == Chaining(EnsureEngine) && reply.Ensured? then
      Put(r.(children := r.children + {SecretEngine}, worker := w.(engineSucceeded := reply.succeeded)), Chaining(EnsureRole), cs)
    else if w.pc == Chaining(EnsureRole) && reply.Ensured? then
      Put(r.(children := r.children + {Role}),
          if w.engineSucceeded && reply.succeeded then Chaining(EnsureAccount) else FinalPatch, cs)
    else if w.pc == Chaining(EnsureAccount) && reply == Done then
      At(r.(children := r.children + {ServiceAccount}), Chaining(EnsureRequest))
    else if w.pc == Chaining(EnsureRequest) && reply.Ensured? then
      Put(r.(children := r.children + {AccessRequest}, subjects := WithSubject(r.subjects, r.account)),
          if w.obj.spec.autoApproval then Chaining(Approve) else AfterApproval(reply.succeeded), cs)
    else if w.pc == Chaining(Approve) && reply.Ensured? then Put(r, AfterApproval(reply.succeeded), cs)
    else if w.pc == Chaining(GetCredential) && reply == Done then
      At(r, if w.obj.spec.restore then Restoring(CopyRepository) else Initializing(ReadJob))
    else At(r, FinalPatch)
  }

  /** runMongoSchema, restore branch. */
  function RestoreStep(r: Resource, reply: Reply, cs: seq<Condition>): Resource {
    var w := r.worker;
    if w.pc == Restoring(CopyRepository) && reply == Done then
      At(r.(children := r.children + {Repository}), Restoring(CopyRepositorySecret))
    else if w.pc == Restoring(CopyRepositorySecret) && reply.Ensured? then
      Put(r.(children := r.children + {RepositorySecret}), Restoring(CopyAuthSecret), cs)
    else if w.pc == Restoring(CopyAuthSecret) && reply == Done then
      At(r.(children := r.children + {AuthSecret}), Restoring(EnsureAppBinding))
    else if w.pc == Restoring(CopyAuthSecret) && reply.Ensured? then
      // an error of this one CreateOrPatch is overwritten before it is looked at
      At(r, Restoring(EnsureAppBinding))
    else if w.pc == Restoring(EnsureAppBinding) && reply.Ensured? then
      Put(r.(children := r.children + {AppBinding}), Restoring(EnsureRestore), cs)
    else if w.pc == Restoring(EnsureRestore) && reply.Restored? then
      Put(r.(children := r.children + {RestoreSession}), FinalPatch, cs)
    else At(r, FinalPatch)
  }

  /** runMongoSchema, init branch. A missing spec.init is dereferenced: the run ends there. */
  function JobStep(u: UID, r: Resource, sv: Server, reply: Reply, cs: seq<Condition>): StepResult {
    var w := r.worker;
    if w.pc == Initializing(ReadJob) && reply.Ensured? then
      if w.obj.spec.init.None? then Only(At(r, Idle), sv)
      else Only(Put(r.(worker := w.(sawJob := true)), if w.obj.spec.init.value.initialized then FinalPatch else Initializing(MakeJob), cs), sv)
    else if w.pc == Initializing(MakeJob) && reply.Ensured? && w.obj.spec.init.Some? && w.obj.spec.init.value.hasScript then
      // the job was not found
      StepResult(Put(r.(children := r.children + {Job}), FinalPatch, cs), sv, [JobMade(u, w.obj.spec.restore)])
    else Only(At(r, FinalPatch), sv)
  }

  function FinalStep(u: UID, r: Resource, sv: Server, reply: Reply, p: Phase): StepResult
    requires r.hist != []
  {
    var w := r.worker;
    if reply == Done && r.alive then
      StepResult(At(PatchStatus(WithPhase(r, p)), Idle), sv,
                 [Concluded(u, w.obj.spec.restore, w.sawJob, p, w.obj.conditions)])
    else Only(At(r, Idle), sv)
  }

  function Step(u: UID, r: Resource, sv: Server, reply: Reply): StepResult
    requires r.hist != []
  {
    var cs := Noted(r.worker, reply);
    var p := PhaseOf(r.worker.obj);
    match r.worker.pc
    case Idle => Only(Begin(r, reply), sv)
    case Gating(_) => Only(GateStep(r, reply, cs, p), sv)
    case Registering(_) => RegisterStep(u, r, sv, reply)
    case Deleting(_) => DeleteStep(u, r, sv, reply)
    case Chaining(_) => Only(ChainStep(r, reply, cs), sv)
    case Restoring(_) => Only(RestoreStep(r, reply, cs), sv)
    case Initializing(_) => JobStep(u, r, sv, reply, cs)
    case FinalPatch => FinalStep(u, r, sv, reply, p)
  }

  /* ---------- one event ---------- */

  function NewResource(name: DatabaseName, account: string, spec: Spec, otherFinalizers: bool): Resource {
    var v := Version(false, false, spec, None, []);
    Resource(name, account, [v], true, otherFinalizers, 0, Worker(Idle, v, 0, false, false), {}, [])
  }

  function Revise(r: Resource, v: Version): Resource {
    r.(hist := r.hist + [v])
  }

  function UserStep(r: Resource, e: Event): Resource
    requires r.hist != []
  {
    match e
    case Crash(_) => At(r, Idle)
    case Edit(_, spec) => if r.alive then Revise(r, Current(r).(spec := spec)) else r
    case RequestDeletion(_) =>
      if r.alive && !Current(r).deleting then
        Revise(r, Current(r).(deleting := true)).(alive := Current(r).finalizer || r.otherFinalizers)
      else r
    case ReleaseOtherFinalizers(_) =>
      Revise(r, Current(r)).(otherFinalizers := false, alive := r.alive && (!Current(r).deleting || Current(r).finalizer))
    case AddSubject(_, subject) => if subject == r.account then r else r.(subjects := r.subjects + [subject])
    case _ => r
  }

  function Apply(s: State, e: Event): State {
    match e
    case Create(u, name, account, spec, others) =>
      if u in s.resources || name == System then s
      else s.(resources := s.resources[u := NewResource(name, account, spec, others)])
    case WriteDatabase(name, collections) =>
      if name == System then s
      else s.(server := s.server.(databases := s.server.databases[name := collections]))
    case Act(u, reply) =>
      if u !in s.resources || s.resources[u].hist == [] then s
      else
        var st := Step(u, s.resources[u], s.server, reply);
        State(s.resources[u := st.resource], st.server, s.log + st.notes)
    case _ =>
      if e.uid !in s.resources || s.resources[e.uid].hist == [] then s
      else s.(resources := s.resources[e.uid := UserStep(s.resources[e.uid], e)])
  }

  function Run(s: State, events: seq<Event>): State {
    if events == [] then s else Apply(Run(s, Front(events)), Last(events))
  }

  lemma {:induction false} RunConcat(s: State, a: seq<Event>, b: seq<Event>)
    ensures Run(s, a + b) == Run(Run(s, a), b)
  {
    hide Apply;
    if b == [] {
      assert a + b == a;
    } else {
      RunConcat(s, a, Front(b));
      assert Front(a + b) == a + Front(b) && Last(a + b) == Last(b);
    }
  }

  lemma RunOne(s: State, a: seq<Event>, e: Event)
    ensures Run(s, a + [e]) == Apply(Run(s, a), e)
  {
    hide Apply;
    assert Front(a + [e]) == a && Last(a + [e]) == e;
  }

  /** No resource yet and no entries; the databases may hold anything. */
  function Start(databases: map<DatabaseName, set<string>>): State {
    State(map[], Server(databases, {}), [])
  }
}
