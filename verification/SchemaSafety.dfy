/** What every run of the schema manager keeps: when a database may be dropped, how entry and
    finalizer go together, which children exist, and what a concluded phase means. */
module SchemaSafety {
  import opened Common
  import opened Conditions
  import opened SchemaStatus
  import opened SchemaProtocol

  /* ---------- reading the log ---------- */

  /** The resource listed the database, saw it empty, and has not deleted its entry since. */
  ghost predicate Licensed(log: seq<Note>, u: UID, name: DatabaseName) {
    log != [] &&
    (Last(log) == Listed(u, name, true) ||
     (Last(log) != EntryDeleted(u, name) && Licensed(Front(log), u, name)))
  }

  ghost predicate EntryWasDeleted(log: seq<Note>, u: UID) {
    exists i | 0 <= i < |log| :: log[i].EntryDeleted? && log[i].uid == u
  }

  /** The resource's latest note. */
  ghost function LastOwn(log: seq<Note>, u: UID): Option<Note> {
    if log == [] then None
    else if Last(log).uid == u then Some(Last(log))
    else LastOwn(Front(log), u)
  }

  /** What each note says about the log before it. */
  ghost predicate Justified(log: seq<Note>, note: Note) {
    match note
    case Dropped(u, name) => Licensed(log, u, name) && !EntryWasDeleted(log, u)
    case EntryDeleted(u, name) => LastOwn(log, u) == Some(Dropped(u, name))
    case Released(u, entryLeft) => entryLeft <==> LastOwn(log, u) == Some(FindFailed(u, true))
    case JobMade(u, restore) => !restore
    case Concluded(u, restore, sawJob, phase, conditions) =>
      && UniqueKinds(conditions)
      && phase == GetPhaseFromCondition(conditions, restore)
      && (sawJob ==> !restore && HasCondition(conditions, JOB_COMPLETED))
    case _ => true
  }

  ghost predicate Sound(log: seq<Note>) {
    forall i | 0 <= i < |log| :: Justified(log[..i], log[i])
  }

  lemma SoundExtends(log: seq<Note>, notes: seq<Note>)
    requires Sound(log) && |notes| <= 1
    requires notes != [] ==> Justified(log, notes[0])
    ensures Sound(log + notes)
  {
    var all := log + notes;
    forall i | 0 <= i < |all|
      ensures Justified(all[..i], all[i])
    {
      assert all[..i] == log[..i];
      if i == |log| {
        assert log[..i] == log;
      }
    }
  }

  /** Notes of one resource say nothing about another. */
  lemma LogFrame(log: seq<Note>, notes: seq<Note>, v: UID, name: DatabaseName)
    requires |notes| <= 1 && (notes != [] ==> notes[0].uid != v)
    ensures Licensed(log + notes, v, name) <==> Licensed(log, v, name)
    ensures EntryWasDeleted(log + notes, v) <==> EntryWasDeleted(log, v)
    ensures LastOwn(log + notes, v) == LastOwn(log, v)
  {
    var all := log + notes;
    if notes == [] {
      assert all == log;
    } else {
      assert Front(all) == log && Last(all) == notes[0];
      assert forall i | 0 <= i < |log| :: all[i] == log[i];
    }
  }

  lemma LogAppend(log: seq<Note>, note: Note, name: DatabaseName)
    ensures Licensed(log + [note], note.uid, name) <==>
              note == Listed(note.uid, name, true) ||
              (note != EntryDeleted(note.uid, name) && Licensed(log, note.uid, name))
    ensures EntryWasDeleted(log + [note], note.uid) <==> note.EntryDeleted? || EntryWasDeleted(log, note.uid)
    ensures LastOwn(log + [note], note.uid) == Some(note)
  {
    var all := log + [note];
    assert Front(all) == log && Last(all) == note;
    assert forall i | 0 <= i < |log| :: all[i] == log[i];
    assert all[|log|] == note;
  }

  lemma {:induction false} UnmentionedHasNoHistory(log: seq<Note>, u: UID, name: DatabaseName)
    requires forall n <- log :: n.uid != u
    ensures LastOwn(log, u) == None && !EntryWasDeleted(log, u) && !Licensed(log, u, name)
  {
    if log != [] {
      UnmentionedHasNoHistory(Front(log), u, name);
    }
  }

  /* ---------- the invariant of one resource ---------- */

  /** Inside runMongoSchema or at the status patch after it. */
  predicate InSchema(pc: Pc) {
    pc.Chaining? || pc.Restoring? || pc.Initializing? || pc.FinalPatch?
  }

  ghost predicate SameMeta(v: Version, w: Version) {
    v.deleting == w.deleting && v.finalizer == w.finalizer && v.spec == w.spec
  }

  /** Versions: deletion never clears, and the finalizer goes away only under deletion. */
  ghost predicate Timeline(r: Resource) {
    && r.hist != []
    && r.seen < |r.hist|
    && (forall i, j | 0 <= i <= j < |r.hist| :: r.hist[i].deleting ==> r.hist[j].deleting)
    && (forall i, j | 0 <= i <= j < |r.hist| :: r.hist[i].finalizer ==> r.hist[j].finalizer || r.hist[j].deleting)
    && (!r.alive ==> Current(r).deleting)
    && r.name != System
  }

  /** The worker's copy stems from a version of the resource and fits the program point. */
  ghost predicate Snapshot(r: Resource) {
    var w := r.worker;
    w.pc == Idle ||
    (&& r.seen <= w.base < |r.hist|
     && SameMeta(w.obj, r.hist[w.base])
     && (!InSchema(w.pc) ==> w.base == r.seen)
     && (w.pc.Registering? ==> !w.obj.deleting && !w.obj.finalizer)
     && (w.pc.Deleting? ==> w.obj.deleting && w.obj.finalizer && w.obj.spec.policy == PolicyDelete)
     && (InSchema(w.pc) ==> w.obj.deleting || w.obj.finalizer))
  }

  /** Entry, finalizer and the right to drop. */
  ghost predicate Ownership(u: UID, r: Resource, entries: set<Entry>, log: seq<Note>)
    requires r.hist != [] && r.seen < |r.hist|
  {
    var pc := r.worker.pc;
    var entry := Entry(u, r.name);
    && (entry in entries ==> Licensed(log, u, r.name))
    && (pc == Registering(UpsertEntry) ==> Licensed(log, u, r.name))
    && (pc == Registering(AddFinalizer) || pc == Deleting(DropDatabase) || pc == Deleting(DeleteEntry) ==> entry in entries)
    && (pc == Deleting(DeleteEntry) ==> LastOwn(log, u) == Some(Dropped(u, r.name)))
    && (pc == Deleting(RemoveFinalizer) && entry in entries ==> LastOwn(log, u) == Some(FindFailed(u, true)))
    && (LastOwn(log, u) == Some(FindFailed(u, true)) ==> entry in entries)
    && (Current(r).finalizer && !Current(r).deleting ==> entry in entries)
    && (EntryWasDeleted(log, u) ==> r.hist[r.seen].deleting && entry !in entries)
  }

  /** Each child presupposes the ones before it. */
  ghost predicate Children(r: Resource)
    requires r.hist != []
  {
    var pc := r.worker.pc;
    var c := r.children;
    && (Job in c || RestoreSession in c ==> AccessRequest in c)
    && (AccessRequest in c ==> ServiceAccount in c && r.account in r.subjects)
    && (ServiceAccount in c ==> Role in c)
    && (Role in c ==> SecretEngine in c)
    && (SecretEngine in c ==> Current(r).finalizer || Current(r).deleting)
    && (pc == Chaining(EnsureRole) ==> SecretEngine in c)
    && (pc == Chaining(EnsureAccount) ==> Role in c)
    && (pc == Chaining(EnsureRequest) ==> ServiceAccount in c)
    && (pc == Chaining(Approve) || pc == Chaining(GetCredential) || pc.Restoring? || pc.Initializing? ==> AccessRequest in c)
    && multiset(r.subjects)[r.account] <= 1
  }

  ghost predicate GoodHistory(r: Resource) {
    forall v <- r.hist :: UniqueKinds(v.conditions)
  }

  /** Condition lists and the branch a run is on. */
  ghost predicate Bookkeeping(r: Resource) {
    var w := r.worker;
    && GoodHistory(r)
    && (w.pc != Idle ==> UniqueKinds(w.obj.conditions))
    && (w.pc != Idle && w.sawJob ==> !w.obj.spec.restore && HasCondition(w.obj.conditions, JOB_COMPLETED))
    && (w.pc != Idle && w.sawJob ==> w.pc == Initializing(MakeJob) || w.pc == FinalPatch)
    && (w.pc.Initializing? ==> !w.obj.spec.restore)
    && (w.pc.Restoring? ==> w.obj.spec.restore)
  }

  ghost predicate Shape(r: Resource) {
    Timeline(r) && Snapshot(r)
  }

  ghost predicate Owned(u: UID, r: Resource, entries: set<Entry>, log: seq<Note>) {
    r.hist != [] && r.seen < |r.hist| && Ownership(u, r, entries, log)
  }

  ghost predicate Parented(r: Resource) {
    r.hist != [] && Children(r)
  }

  ghost predicate ResourceInv(u: UID, r: Resource, entries: set<Entry>, log: seq<Note>) {
    Shape(r) && Owned(u, r, entries, log) && Parented(r) && Bookkeeping(r)
  }

  ghost predicate Inv(s: State) {
    && (forall u <- s.resources :: ResourceInv(u, s.resources[u], s.server.entries, s.log))
    && (forall e <- s.server.entries :: e.uid in s.resources)
    && (forall n <- s.log :: n.uid in s.resources)
    && Sound(s.log)
  }

  /* ---------- preservation: how a step changes the versions ---------- */

  /** One more version at most, saying the same about deletion and finalizer. */
  ghost predicate StatusOnly(r: Resource, r': Resource)
    requires r.hist != []
  {
    && (r'.hist == r.hist || exists v :: r'.hist == r.hist + [v] && SameMeta(v, Current(r)))
    && r'.name == r.name && r'.account == r.account && r'.alive == r.alive && r'.seen == r.seen
    && r'.children == r.children && r'.subjects == r.subjects
  }

  /** No new version, and the worker's copy still is the one it read. */
  ghost predicate Quiet(r: Resource, r': Resource) {
    && r'.hist == r.hist && r'.name == r.name && r'.seen == r.seen && r'.alive == r.alive
    && (r'.worker.pc == Idle || (SameMeta(r'.worker.obj, r.worker.obj) && r'.worker.base == r.worker.base))
  }

  lemma PatchIsStatusOnly(r: Resource, r1: Resource)
    requires r.hist != []
    requires r1 == r.(worker := r1.worker)
    ensures StatusOnly(r, PatchStatus(r1))
    ensures PatchStatus(r1).worker == r1.worker
  {
    var v := Current(r1).(phase := r1.worker.obj.phase, conditions := r1.worker.obj.conditions);
    assert SameMeta(v, Current(r));
    assert PatchStatus(r1).hist == r.hist || PatchStatus(r1).hist == r.hist + [v];
  }

  lemma GrowKeepsTimeline(r: Resource, r': Resource, v: Version)
    requires Timeline(r)
    requires r'.hist == r.hist + [v] && r'.name == r.name && r'.seen == r.seen
    requires Current(r).deleting ==> v.deleting
    requires Current(r).finalizer ==> v.finalizer || v.deleting
    requires r'.alive || v.deleting
    ensures Timeline(r')
    ensures Current(r') == v
    ensures forall i | 0 <= i < |r.hist| :: r'.hist[i] == r.hist[i]
  {
    assert Current(r') == v;
    assert forall i | 0 <= i < |r.hist| :: r'.hist[i] == r.hist[i];
    forall i, j | 0 <= i <= j < |r'.hist|
      ensures r'.hist[i].deleting ==> r'.hist[j].deleting
      ensures r'.hist[i].finalizer ==> r'.hist[j].finalizer || r'.hist[j].deleting
    {
      if j == |r.hist| && i < j {
        assert r.hist[i].deleting ==> r.hist[j - 1].deleting;
        assert r.hist[i].finalizer ==> r.hist[j - 1].finalizer || r.hist[j - 1].deleting;
      }
    }
  }

  lemma StatusOnlyKeepsTimeline(r: Resource, r': Resource)
    requires Timeline(r) && StatusOnly(r, r')
    ensures Timeline(r')
    ensures |r.hist| <= |r'.hist| && (forall i | 0 <= i < |r.hist| :: r'.hist[i] == r.hist[i])
    ensures SameMeta(Current(r'), Current(r))
  {
    if r'.hist != r.hist {
      var v :| r'.hist == r.hist + [v] && SameMeta(v, Current(r));
      GrowKeepsTimeline(r, r', v);
    }
  }

  lemma GateIsStatusOnly(r: Resource, reply: Reply, cs: seq<Condition>, p: Phase)
    requires r.hist != []
    ensures var r' := GateStep(r, reply, cs, p);
            && StatusOnly(r, r')
            && (r'.worker.pc == Idle ||
                (&& SameMeta(r'.worker.obj, r.worker.obj) && r'.worker.base == r.worker.base
                 && r'.worker.pc in {Gating(Gate), Gating(GatePatch), Route(r.worker.obj)}))
  {
    PatchIsStatusOnly(r, WithPhase(r, p));
  }

  lemma FinalIsStatusOnly(u: UID, r: Resource, sv: Server, reply: Reply, p: Phase)
    requires r.hist != []
    ensures var st := FinalStep(u, r, sv, reply, p);
            && StatusOnly(r, st.resource) && st.server == sv && st.resource.worker.pc == Idle
            && (st.notes == [] || (|st.notes| == 1 && st.notes[0].Concluded? && st.notes[0].uid == u))
  {
    PatchIsStatusOnly(r, WithPhase(r, p));
  }

  lemma IgnoreIsStatusOnly(u: UID, r: Resource, sv: Server, reply: Reply)
    requires r.hist != [] && r.worker.pc == Registering(IgnoredPatch)
    ensures var st := RegisterStep(u, r, sv, reply);
            StatusOnly(r, st.resource) && st.server == sv && st.resource.worker.pc == Idle && st.notes == []
  {
    PatchIsStatusOnly(r, WithPhase(r, Ignored));
  }

  /** Registration and deletion steps that only advance the program counter. */
  predicate Finalizing(r: Resource, reply: Reply) {
    reply == Done && UpdateAccepted(r)
    && (r.worker.pc == Registering(AddFinalizer) || r.worker.pc == Deleting(RemoveFinalizer))
  }

  lemma RegisterMoves(u: UID, r: Resource, sv: Server, reply: Reply)
    requires r.hist != [] && r.worker.pc.Registering? && r.worker.pc != Registering(IgnoredPatch) && !Finalizing(r, reply)
    ensures var st := RegisterStep(u, r, sv, reply);
            var pc' := st.resource.worker.pc;
            st.resource == At(r, pc') && (pc' == Idle || pc'.Registering?)
  {
  }

  lemma DeleteMoves(u: UID, r: Resource, sv: Server, reply: Reply)
    requires r.hist != [] && r.worker.pc.Deleting? && !Finalizing(r, reply)
    ensures var st := DeleteStep(u, r, sv, reply);
            var pc' := st.resource.worker.pc;
            st.resource == At(r, pc') && (pc' == Idle || pc'.Deleting?)
  {
  }

  /** Nothing the versions or the worker's copy would notice. */
  lemma PutIsQuiet(r: Resource, r1: Resource, pc: Pc, cs: seq<Condition>)
    requires r1 == r.(children := r1.children, subjects := r1.subjects, worker := r1.worker)
    requires r1.worker.obj == r.worker.obj && r1.worker.base == r.worker.base
    ensures Quiet(r, Put(r1, pc, cs)) && Put(r1, pc, cs).worker.pc == pc
    ensures Quiet(r, At(r1, pc)) && At(r1, pc).worker.pc == pc
  {
  }

  lemma ChainIsQuiet(r: Resource, reply: Reply, cs: seq<Condition>)
    ensures var r' := ChainStep(r, reply, cs); Quiet(r, r') && InSchema(r'.worker.pc)
  {
    hide Quiet, Put, At, WithSubject;
    var w, pc := r.worker, ChainStep(r, reply, cs).worker.pc;
    PutIsQuiet(r, r, FinalPatch, cs);
    match w.pc {
      case Chaining(EnsureEngine) =>
        if reply.Ensured? {
          PutIsQuiet(r, r.(children := r.children + {SecretEngine}, worker := w.(engineSucceeded := reply.succeeded)), Chaining(EnsureRole), cs);
        }
      case Chaining(EnsureRole) =>
        PutIsQuiet(r, r.(children := r.children + {Role}), Chaining(EnsureAccount), cs);
        PutIsQuiet(r, r.(children := r.children + {Role}), FinalPatch, cs);
      case Chaining(EnsureAccount) => PutIsQuiet(r, r.(children := r.children + {ServiceAccount}), Chaining(EnsureRequest), cs);
      case Chaining(EnsureRequest) =>
        var r1 := r.(children := r.children + {AccessRequest}, subjects := WithSubject(r.subjects, r.account));
        PutIsQuiet(r, r1, Chaining(Approve), cs);
        PutIsQuiet(r, r1, Chaining(GetCredential), cs);
        PutIsQuiet(r, r1, FinalPatch, cs);
      case Chaining(Approve) => PutIsQuiet(r, r, Chaining(GetCredential), cs);
      case Chaining(GetCredential) =>
        PutIsQuiet(r, r, Restoring(CopyRepository), cs);
        PutIsQuiet(r, r, Initializing(ReadJob), cs);
      case _ =>
    }
  }

  lemma RestoreIsQuiet(r: Resource, reply: Reply, cs: seq<Condition>)
    ensures var r' := RestoreStep(r, reply, cs); Quiet(r, r') && InSchema(r'.worker.pc)
  {
  }

  lemma JobIsQuiet(u: UID, r: Resource, sv: Server, reply: Reply, cs: seq<Condition>)
    ensures var st := JobStep(u, r, sv, reply, cs);
            && Quiet(r, st.resource) && st.server == sv
            && (st.resource.worker.pc == Idle || InSchema(st.resource.worker.pc))
            && (st.notes == [] || (st.notes == [JobMade(u, r.worker.obj.spec.restore)] && r.worker.pc == Initializing(MakeJob)))
  {
  }

  /* ---------- preservation: timeline and snapshot ---------- */

  lemma QuietKeepsShape(r: Resource, r': Resource)
    requires Shape(r) && Quiet(r, r') && InSchema(r.worker.pc)
    requires r'.worker.pc == Idle || InSchema(r'.worker.pc)
    ensures Shape(r')
  {
  }

  lemma PatchedKeepsShape(r: Resource, r': Resource)
    requires Shape(r) && StatusOnly(r, r')
    requires r'.worker.pc == Idle ||
             (&& r.worker.pc.Gating?
              && SameMeta(r'.worker.obj, r.worker.obj) && r'.worker.base == r.worker.base
              && r'.worker.pc in {Gating(Gate), Gating(GatePatch), Route(r.worker.obj)})
    ensures Shape(r')
  {
    StatusOnlyKeepsTimeline(r, r');
  }

  lemma BeginKeepsShape(r: Resource, reply: Reply)
    requires Shape(r) && r.worker.pc == Idle
    ensures Shape(Begin(r, reply))
  {
  }

  lemma AddFinalizerKeepsShape(u: UID, r: Resource, sv: Server)
    requires Shape(r) && r.worker.pc == Registering(AddFinalizer) && UpdateAccepted(r)
    ensures Shape(RegisterStep(u, r, sv, Done).resource)
  {
    var r' := RegisterStep(u, r, sv, Done).resource;
    GrowKeepsTimeline(r, r', Current(r).(finalizer := true));
  }

  lemma MoveKeepsShape(r: Resource, pc: Pc)
    requires Shape(r)
    requires pc == Idle || (pc.Registering? && r.worker.pc.Registering?) || (pc.Deleting? && r.worker.pc.Deleting?)
    ensures Shape(At(r, pc))
  {
  }

  lemma RegisterKeepsShape(u: UID, r: Resource, sv: Server, reply: Reply)
    requires Shape(r) && r.worker.pc.Registering?
    ensures Shape(RegisterStep(u, r, sv, reply).resource)
  {
    var r' := RegisterStep(u, r, sv, reply).resource;
    if r.worker.pc == Registering(IgnoredPatch) {
      IgnoreIsStatusOnly(u, r, sv, reply);
      PatchedKeepsShape(r, r');
    } else if Finalizing(r, reply) {
      AddFinalizerKeepsShape(u, r, sv);
    } else {
      RegisterMoves(u, r, sv, reply);
      MoveKeepsShape(r, r'.worker.pc);
    }
  }

  lemma RemoveFinalizerKeepsShape(u: UID, r: Resource, sv: Server)
    requires Shape(r) && r.worker.pc == Deleting(RemoveFinalizer) && UpdateAccepted(r)
    ensures Shape(DeleteStep(u, r, sv, Done).resource)
  {
    var r' := DeleteStep(u, r, sv, Done).resource;
    GrowKeepsTimeline(r, r', Current(r).(finalizer := false));
  }

  lemma DeleteKeepsShape(u: UID, r: Resource, sv: Server, reply: Reply)
    requires Shape(r) && r.worker.pc.Deleting?
    ensures Shape(DeleteStep(u, r, sv, reply).resource)
  {
    if Finalizing(r, reply) {
      RemoveFinalizerKeepsShape(u, r, sv);
    } else {
      DeleteMoves(u, r, sv, reply);
      MoveKeepsShape(r, DeleteStep(u, r, sv, reply).resource.worker.pc);
    }
  }

  lemma StepKeepsShape(u: UID, r: Resource, sv: Server, reply: Reply)
    requires Shape(r)
    ensures Shape(Step(u, r, sv, reply).resource)
  {
    var cs, p := Noted(r.worker, reply), PhaseOf(r.worker.obj);
    var r' := Step(u, r, sv, reply).resource;
    match r.worker.pc {
      case Idle => BeginKeepsShape(r, reply);
      case Gating(_) =>
        GateIsStatusOnly(r, reply, cs, p);
        PatchedKeepsShape(r, r');
      case Registering(_) => RegisterKeepsShape(u, r, sv, reply);
      case Deleting(_) => DeleteKeepsShape(u, r, sv, reply);
      case Chaining(_) =>
        ChainIsQuiet(r, reply, cs);
        QuietKeepsShape(r, r');
      case Restoring(_) =>
        RestoreIsQuiet(r, reply, cs);
        QuietKeepsShape(r, r');
      case Initializing(_) =>
        JobIsQuiet(u, r, sv, reply, cs);
        QuietKeepsShape(r, r');
      case FinalPatch =>
        FinalIsStatusOnly(u, r, sv, reply, p);
        PatchedKeepsShape(r, r');
    }
  }

  /* ---------- preservation: ownership ---------- */

  /** Steps that neither touch the entries nor change what the versions say about deletion. */
  lemma IndifferentKeepsOwned(u: UID, r: Resource, r': Resource, entries: set<Entry>, log: seq<Note>, notes: seq<Note>)
    requires Owned(u, r, entries, log)
    requires r'.hist != [] && r'.seen < |r'.hist| && r'.name == r.name
    requires r.hist[r.seen].deleting ==> r'.hist[r'.seen].deleting
    requires Current(r').finalizer && !Current(r').deleting ==> Current(r).finalizer && !Current(r).deleting
    requires r'.worker.pc == Idle || r'.worker.pc in {Gating(Gate), Gating(GatePatch), Registering(ListCollections), Deleting(FindEntry), Gating(Announce)} || InSchema(r'.worker.pc)
    requires notes == [] || (|notes| == 1 && notes[0].uid == u && !notes[0].EntryDeleted? && !notes[0].FindFailed?)
    ensures Owned(u, r', entries, log + notes)
  {
    if notes == [] {
      assert log + notes == log;
    } else {
      LogAppend(log, notes[0], r.name);
    }
  }

  lemma BeginKeepsOwned(u: UID, r: Resource, sv: Server, log: seq<Note>, reply: Reply)
    requires Shape(r) && Owned(u, r, sv.entries, log) && r.worker.pc == Idle
    ensures Owned(u, Begin(r, reply), sv.entries, log + [])
  {
    var r' := Begin(r, reply);
    assert r.hist[r.seen].deleting ==> r'.hist[r'.seen].deleting;
    IndifferentKeepsOwned(u, r, r', sv.entries, log, []);
  }

  lemma PatchedKeepsOwned(u: UID, r: Resource, r': Resource, entries: set<Entry>, log: seq<Note>, notes: seq<Note>)
    requires Timeline(r) && Owned(u, r, entries, log) && StatusOnly(r, r')
    requires r'.worker.pc == Idle || r'.worker.pc in {Gating(Gate), Gating(GatePatch), Route(r.worker.obj)}
    requires notes == [] || (|notes| == 1 && notes[0].uid == u && !notes[0].EntryDeleted? && !notes[0].FindFailed?)
    ensures Owned(u, r', entries, log + notes)
  {
    StatusOnlyKeepsTimeline(r, r');
    IndifferentKeepsOwned(u, r, r', entries, log, notes);
  }

  lemma QuietKeepsOwned(u: UID, r: Resource, r': Resource, entries: set<Entry>, log: seq<Note>, notes: seq<Note>)
    requires Owned(u, r, entries, log) && Quiet(r, r')
    requires r'.worker.pc == Idle || InSchema(r'.worker.pc)
    requires notes == [] || (|notes| == 1 && notes[0].uid == u && !notes[0].EntryDeleted? && !notes[0].FindFailed?)
    ensures Owned(u, r', entries, log + notes)
  {
    IndifferentKeepsOwned(u, r, r', entries, log, notes);
  }

  lemma AddFinalizerKeepsOwned(u: UID, r: Resource, sv: Server, log: seq<Note>)
    requires Shape(r) && Owned(u, r, sv.entries, log) && r.worker.pc == Registering(AddFinalizer) && UpdateAccepted(r)
    ensures var st := RegisterStep(u, r, sv, Done); Owned(u, st.resource, st.server.entries, log + st.notes)
  {
    var r' := RegisterStep(u, r, sv, Done).resource;
    GrowKeepsTimeline(r, r', Current(r).(finalizer := true));
    assert log + [] == log;
  }

  lemma ClaimKeepsOwned(u: UID, r: Resource, sv: Server, log: seq<Note>, pc: RegisterPc)
    requires Shape(r) && Owned(u, r, sv.entries, log)
    requires r.worker.pc == Registering(pc) && (pc == ListCollections || pc == UpsertEntry)
    ensures var st := RegisterStep(u, r, sv, Done); Owned(u, st.resource, st.server.entries, log + st.notes)
  {
    var st := RegisterStep(u, r, sv, Done);
    LogAppend(log, st.notes[0], r.name);
    assert r.hist[r.seen].deleting ==> r.worker.obj.deleting;
  }

  lemma RegisterKeepsOwned(u: UID, r: Resource, sv: Server, log: seq<Note>, reply: Reply)
    requires Shape(r) && Owned(u, r, sv.entries, log) && r.worker.pc.Registering?
    ensures var st := RegisterStep(u, r, sv, reply); Owned(u, st.resource, st.server.entries, log + st.notes)
  {
    var st := RegisterStep(u, r, sv, reply);
    match r.worker.pc {
      case Registering(IgnoredPatch) =>
        IgnoreIsStatusOnly(u, r, sv, reply);
        PatchedKeepsOwned(u, r, st.resource, sv.entries, log, st.notes);
      case Registering(AddFinalizer) =>
        if Finalizing(r, reply) {
          AddFinalizerKeepsOwned(u, r, sv, log);
        } else {
          IndifferentKeepsOwned(u, r, st.resource, sv.entries, log, st.notes);
        }
      case Registering(pc) =>
        if reply == Done {
          ClaimKeepsOwned(u, r, sv, log, pc);
        } else {
          IndifferentKeepsOwned(u, r, st.resource, sv.entries, log, st.notes);
        }
    }
  }

  lemma RemoveFinalizerKeepsOwned(u: UID, r: Resource, sv: Server, log: seq<Note>)
    requires Shape(r) && Owned(u, r, sv.entries, log) && r.worker.pc == Deleting(RemoveFinalizer) && UpdateAccepted(r)
    ensures var st := DeleteStep(u, r, sv, Done); Owned(u, st.resource, st.server.entries, log + st.notes)
  {
    var st := DeleteStep(u, r, sv, Done);
    GrowKeepsTimeline(r, st.resource, Current(r).(finalizer := false));
    IndifferentKeepsOwned(u, r, st.resource, sv.entries, log, st.notes);
  }

  lemma FindKeepsOwned(u: UID, r: Resource, sv: Server, log: seq<Note>, reply: Reply)
    requires Owned(u, r, sv.entries, log)
    requires r.worker.pc == Deleting(FindEntry)
    ensures var st := DeleteStep(u, r, sv, reply); Owned(u, st.resource, st.server.entries, log + st.notes)
  {
    var st := DeleteStep(u, r, sv, reply);
    if st.notes == [] {
      assert log + st.notes == log;
    } else {
      LogAppend(log, st.notes[0], r.name);
    }
  }

  lemma DropKeepsOwned(u: UID, r: Resource, sv: Server, log: seq<Note>)
    requires Owned(u, r, sv.entries, log) && r.name != System
    requires r.worker.pc == Deleting(DropDatabase)
    ensures var st := DeleteStep(u, r, sv, Done); Owned(u, st.resource, st.server.entries, log + st.notes)
  {
    LogAppend(log, Dropped(u, r.name), r.name);
  }

  lemma DeleteEntryKeepsOwned(u: UID, r: Resource, sv: Server, log: seq<Note>)
    requires Shape(r) && Owned(u, r, sv.entries, log)
    requires r.worker.pc == Deleting(DeleteEntry)
    ensures var st := DeleteStep(u, r, sv, Done); Owned(u, st.resource, st.server.entries, log + st.notes)
  {
    LogAppend(log, EntryDeleted(u, r.name), r.name);
    assert r.hist[r.worker.base].deleting ==> Current(r).deleting;
  }

  lemma DeleteKeepsOwned(u: UID, r: Resource, sv: Server, log: seq<Note>, reply: Reply)
    requires Shape(r) && Owned(u, r, sv.entries, log) && r.worker.pc.Deleting?
    ensures var st := DeleteStep(u, r, sv, reply); Owned(u, st.resource, st.server.entries, log + st.notes)
  {
    if r.worker.pc == Deleting(FindEntry) {
      FindKeepsOwned(u, r, sv, log, reply);
    } else if reply != Done || (r.worker.pc == Deleting(RemoveFinalizer) && !UpdateAccepted(r)) {
      IndifferentKeepsOwned(u, r, At(r, Idle), sv.entries, log, []);
    } else {
      match r.worker.pc {
        case Deleting(DropDatabase) => DropKeepsOwned(u, r, sv, log);
        case Deleting(DeleteEntry) => DeleteEntryKeepsOwned(u, r, sv, log);
        case _ => RemoveFinalizerKeepsOwned(u, r, sv, log);
      }
    }
  }

  lemma StepKeepsOwned(u: UID, r: Resource, sv: Server, log: seq<Note>, reply: Reply)
    requires Shape(r) && Owned(u, r, sv.entries, log)
    ensures var st := Step(u, r, sv, reply); Owned(u, st.resource, st.server.entries, log + st.notes)
  {
    var cs, p := Noted(r.worker, reply), PhaseOf(r.worker.obj);
    var st := Step(u, r, sv, reply);
    match r.worker.pc {
      case Idle => BeginKeepsOwned(u, r, sv, log, reply);
      case Gating(_) =>
        GateIsStatusOnly(r, reply, cs, p);
        PatchedKeepsOwned(u, r, st.resource, sv.entries, log, st.notes);
      case Registering(_) => RegisterKeepsOwned(u, r, sv, log, reply);
      case Deleting(_) => DeleteKeepsOwned(u, r, sv, log, reply);
      case Chaining(_) =>
        ChainIsQuiet(r, reply, cs);
        QuietKeepsOwned(u, r, st.resource, sv.entries, log, st.notes);
      case Restoring(_) =>
        RestoreIsQuiet(r, reply, cs);
        QuietKeepsOwned(u, r, st.resource, sv.entries, log, st.notes);
      case Initializing(_) =>
        JobIsQuiet(u, r, sv, reply, cs);
        QuietKeepsOwned(u, r, st.resource, sv.entries, log, st.notes);
      case FinalPatch =>
        FinalIsStatusOnly(u, r, sv, reply, p);
        PatchedKeepsOwned(u, r, st.resource, sv.entries, log, st.notes);
    }
  }

  /* ---------- preservation: children ---------- */

  /** Steps outside runMongoSchema leave the children alone. */
  lemma OutsideKeepsParented(r: Resource, r': Resource)
    requires Parented(r) && r'.hist != []
    requires r'.children == r.children && r'.subjects == r.subjects && r'.account == r.account
    requires Current(r).finalizer || Current(r).deleting ==> Current(r').finalizer || Current(r').deleting
    requires !InSchema(r'.worker.pc) || r'.worker.pc in {Chaining(EnsureEngine), FinalPatch}
    ensures Parented(r')
  {
  }

  lemma RegisterKeepsParented(u: UID, r: Resource, sv: Server, reply: Reply)
    requires Timeline(r) && Parented(r) && r.worker.pc.Registering?
    ensures Parented(RegisterStep(u, r, sv, reply).resource)
  {
    var r' := RegisterStep(u, r, sv, reply).resource;
    if r.worker.pc == Registering(IgnoredPatch) {
      IgnoreIsStatusOnly(u, r, sv, reply);
      StatusOnlyKeepsTimeline(r, r');
    } else if !Finalizing(r, reply) {
      RegisterMoves(u, r, sv, reply);
    }
    OutsideKeepsParented(r, r');
  }

  lemma DeleteKeepsParented(u: UID, r: Resource, sv: Server, reply: Reply)
    requires Shape(r) && Parented(r) && r.worker.pc.Deleting?
    ensures Parented(DeleteStep(u, r, sv, reply).resource)
  {
    var r' := DeleteStep(u, r, sv, reply).resource;
    if Finalizing(r, reply) {
      assert Current(r).deleting;
    } else {
      DeleteMoves(u, r, sv, reply);
    }
    OutsideKeepsParented(r, r');
  }

  lemma EngineKeepsParented(r: Resource, reply: Reply, cs: seq<Condition>)
    requires Shape(r) && Parented(r) && r.worker.pc == Chaining(EnsureEngine)
    ensures Parented(ChainStep(r, reply, cs))
  {
    assert r.hist[r.worker.base].finalizer || r.hist[r.worker.base].deleting;
    assert Current(r).finalizer || Current(r).deleting;
  }

  lemma ChainKeepsParented(r: Resource, reply: Reply, cs: seq<Condition>)
    requires Parented(r) && r.worker.pc in {Chaining(EnsureRole), Chaining(EnsureAccount), Chaining(Approve), Chaining(GetCredential)}
    ensures Parented(ChainStep(r, reply, cs))
  {
  }

  lemma RequestKeepsParented(r: Resource, reply: Reply, cs: seq<Condition>)
    requires Parented(r) && r.worker.pc == Chaining(EnsureRequest)
    ensures Parented(ChainStep(r, reply, cs))
  {
    assert multiset(r.subjects + [r.account]) == multiset(r.subjects) + multiset{r.account};
  }

  lemma RestoreKeepsParented(r: Resource, reply: Reply, cs: seq<Condition>)
    requires Parented(r) && r.worker.pc.Restoring?
    ensures Parented(RestoreStep(r, reply, cs))
  {
  }

  lemma JobKeepsParented(u: UID, r: Resource, sv: Server, reply: Reply, cs: seq<Condition>)
    requires Parented(r) && r.worker.pc.Initializing?
    ensures Parented(JobStep(u, r, sv, reply, cs).resource)
  {
  }

  lemma StepKeepsParented(u: UID, r: Resource, sv: Server, reply: Reply)
    requires Shape(r) && Parented(r)
    ensures Parented(Step(u, r, sv, reply).resource)
  {
    var cs, p := Noted(r.worker, reply), PhaseOf(r.worker.obj);
    var r' := Step(u, r, sv, reply).resource;
    match r.worker.pc {
      case Idle => OutsideKeepsParented(r, r');
      case Gating(_) =>
        GateIsStatusOnly(r, reply, cs, p);
        StatusOnlyKeepsTimeline(r, r');
        OutsideKeepsParented(r, r');
      case Registering(_) => RegisterKeepsParented(u, r, sv, reply);
      case Deleting(_) => DeleteKeepsParented(u, r, sv, reply);
      case Chaining(EnsureEngine) => EngineKeepsParented(r, reply, cs);
      case Chaining(EnsureRequest) => RequestKeepsParented(r, reply, cs);
      case Chaining(_) => ChainKeepsParented(r, reply, cs);
      case Restoring(_) =>
        RestoreKeepsParented(r, reply, cs);
      case Initializing(_) => JobKeepsParented(u, r, sv, reply, cs);
      case FinalPatch =>
        FinalIsStatusOnly(u, r, sv, reply, p);
        StatusOnlyKeepsTimeline(r, r');
        OutsideKeepsParented(r, r');
    }
  }

  /* ---------- preservation: condition lists ---------- */

  lemma RecordKeepsUnique(cs: seq<Condition>, kind: Kind, status: Status, reason: Reason)
    requires UniqueKinds(cs)
    ensures UniqueKinds(Recorded(cs, kind, status, reason))
    ensures HasCondition(Recorded(cs, kind, status, reason), kind)
  {
    var c := Condition(kind, status, NextGeneration(cs, kind, status), reason);
    NextGenerationIsLocal(cs, kind, status);
    SetKeepsUniqueKinds(cs, c);
    SetInstalls(cs, c);
  }

  lemma ObserveKeepsUnique(cs: seq<Condition>, kind: Kind, found: bool, healthy: bool, error: string)
    requires UniqueKinds(cs)
    ensures UniqueKinds(Observe(cs, kind, found, healthy, error))
    ensures HasCondition(Observe(cs, kind, found, healthy, error), kind)
  {
    RecordKeepsUnique(cs, kind, StatusFalse, ErrorText(error));
    RecordKeepsUnique(cs, kind, StatusFalse, Coded(kind));
    RecordKeepsUnique(cs, kind, StatusTrue, Coded(kind));
  }

  lemma ObserveRestoreKeepsUnique(cs: seq<Condition>, found: bool, outcome: RestorePhase, error: string)
    requires UniqueKinds(cs)
    ensures UniqueKinds(ObserveRestore(cs, found, outcome, error))
  {
    RecordKeepsUnique(cs, RESTORE_SESSION, StatusFalse, ErrorText(error));
    RecordKeepsUnique(cs, RESTORE_SESSION, StatusTrue, RESTORE_FAILED_REASON);
    RecordKeepsUnique(cs, RESTORE_SESSION, StatusTrue, RESTORE_SUCCEEDED_REASON);
    RecordKeepsUnique(cs, RESTORE_SESSION, StatusFalse, RESTORE_SUCCEEDED_REASON);
  }

  lemma PatchKeepsHistory(r: Resource)
    requires r.hist != [] && GoodHistory(r) && UniqueKinds(r.worker.obj.conditions)
    ensures GoodHistory(PatchStatus(r))
  {
  }

  lemma NotedKeepsUnique(w: Worker, reply: Reply)
    requires UniqueKinds(w.obj.conditions)
    ensures UniqueKinds(Noted(w, reply))
    ensures reply.Ensured? && w.pc.Initializing? ==> HasCondition(Noted(w, reply), JOB_COMPLETED)
  {
    var cs := w.obj.conditions;
    match reply {
      case Servers(mongoFound, mongoHealthy, vaultFound, vaultHealthy, _, error) =>
        ObserveKeepsUnique(cs, DATABASE_READY, mongoFound, mongoHealthy, error);
        ObserveKeepsUnique(Observe(cs, DATABASE_READY, mongoFound, mongoHealthy, error), VAULT_READY, vaultFound, vaultHealthy, error);
      case Ensured(found, healthy, _, error) =>
        forall kind: Kind, h
          ensures UniqueKinds(Observe(cs, kind, found, h, error)) && HasCondition(Observe(cs, kind, found, h, error), kind)
        {
          ObserveKeepsUnique(cs, kind, found, h, error);
        }
      case Restored(found, outcome, error) => ObserveRestoreKeepsUnique(cs, found, outcome, error);
      case _ =>
    }
  }

  lemma GateKeepsBookkeeping(r: Resource, reply: Reply, cs: seq<Condition>, p: Phase)
    requires r.hist != [] && Bookkeeping(r) && r.worker.pc.Gating? && UniqueKinds(cs)
    ensures Bookkeeping(GateStep(r, reply, cs, p))
  {
    PatchKeepsHistory(WithPhase(r, p));
  }

  lemma RegisterKeepsBookkeeping(u: UID, r: Resource, sv: Server, reply: Reply)
    requires r.hist != [] && Bookkeeping(r) && r.worker.pc.Registering?
    ensures Bookkeeping(RegisterStep(u, r, sv, reply).resource)
  {
    if r.worker.pc == Registering(IgnoredPatch) {
      PatchKeepsHistory(WithPhase(r, Ignored));
    } else if !Finalizing(r, reply) {
      RegisterMoves(u, r, sv, reply);
    }
  }

  lemma DeleteKeepsBookkeeping(u: UID, r: Resource, sv: Server, reply: Reply)
    requires r.hist != [] && Bookkeeping(r) && r.worker.pc.Deleting?
    ensures Bookkeeping(DeleteStep(u, r, sv, reply).resource)
  {
    if !Finalizing(r, reply) {
      DeleteMoves(u, r, sv, reply);
    }
  }

  lemma ChainKeepsBookkeeping(r: Resource, reply: Reply, cs: seq<Condition>)
    requires Bookkeeping(r) && UniqueKinds(cs)
    requires r.worker.pc.Chaining?
    ensures Bookkeeping(ChainStep(r, reply, cs))
  {
  }

  lemma RestoreKeepsBookkeeping(r: Resource, reply: Reply, cs: seq<Condition>)
    requires Bookkeeping(r) && r.worker.pc.Restoring? && UniqueKinds(cs)
    ensures Bookkeeping(RestoreStep(r, reply, cs))
  {
  }

  lemma JobKeepsBookkeeping(u: UID, r: Resource, sv: Server, reply: Reply, cs: seq<Condition>)
    requires Bookkeeping(r) && r.worker.pc.Initializing? && UniqueKinds(cs)
    requires reply.Ensured? ==> HasCondition(cs, JOB_COMPLETED)
    ensures Bookkeeping(JobStep(u, r, sv, reply, cs).resource)
  {
  }

  lemma FinalKeepsBookkeeping(u: UID, r: Resource, sv: Server, reply: Reply, p: Phase)
    requires r.hist != [] && Bookkeeping(r) && r.worker.pc == FinalPatch
    ensures Bookkeeping(FinalStep(u, r, sv, reply, p).resource)
  {
    PatchKeepsHistory(WithPhase(r, p));
  }

  lemma StepKeepsBookkeeping(u: UID, r: Resource, sv: Server, reply: Reply)
    requires r.hist != [] && Bookkeeping(r)
    ensures Bookkeeping(Step(u, r, sv, reply).resource)
  {
    var cs, p := Noted(r.worker, reply), PhaseOf(r.worker.obj);
    if r.worker.pc != Idle {
      NotedKeepsUnique(r.worker, reply);
    }
    match r.worker.pc {
      case Idle =>
      case Gating(_) => GateKeepsBookkeeping(r, reply, cs, p);
      case Registering(_) => RegisterKeepsBookkeeping(u, r, sv, reply);
      case Deleting(_) => DeleteKeepsBookkeeping(u, r, sv, reply);
      case Chaining(_) =>
        ChainKeepsBookkeeping(r, reply, cs);
      case Restoring(_) =>
        RestoreKeepsBookkeeping(r, reply, cs);
      case Initializing(_) => JobKeepsBookkeeping(u, r, sv, reply, cs);
      case FinalPatch => FinalKeepsBookkeeping(u, r, sv, reply, p);
    }
  }

  /* ---------- preservation: the notes a step leaves ---------- */

  lemma RegisterNotes(u: UID, r: Resource, sv: Server, reply: Reply)
    requires r.hist != []
    ensures var st := RegisterStep(u, r, sv, reply);
            && |st.notes| <= 1
            && (st.notes != [] ==> st.notes[0].uid == u && (st.notes[0].Listed? || st.notes[0].Registered?))
            && (forall e: Entry :: e.uid != u ==> (e in st.server.entries <==> e in sv.entries))
  {
  }

  lemma DeleteNotes(u: UID, r: Resource, sv: Server, log: seq<Note>, reply: Reply)
    requires Owned(u, r, sv.entries, log) && r.name != System
    ensures var st := DeleteStep(u, r, sv, reply);
            && |st.notes| <= 1
            && (st.notes != [] ==> st.notes[0].uid == u && Justified(log, st.notes[0]))
            && (forall e: Entry :: e.uid != u ==> (e in st.server.entries <==> e in sv.entries))
  {
  }

  lemma FinalNotes(u: UID, r: Resource, sv: Server, log: seq<Note>, reply: Reply)
    requires r.hist != [] && Bookkeeping(r) && r.worker.pc == FinalPatch
    ensures var st := FinalStep(u, r, sv, reply, PhaseOf(r.worker.obj)); st.notes != [] ==> Justified(log, st.notes[0])
  {
  }

  lemma StepNotes(u: UID, r: Resource, sv: Server, log: seq<Note>, reply: Reply)
    requires Timeline(r) && Owned(u, r, sv.entries, log) && Bookkeeping(r)
    ensures var st := Step(u, r, sv, reply);
            && |st.notes| <= 1
            && (st.notes != [] ==> st.notes[0].uid == u && Justified(log, st.notes[0]))
            && (forall e: Entry :: e.uid != u ==> (e in st.server.entries <==> e in sv.entries))
  {
    var cs, p := Noted(r.worker, reply), PhaseOf(r.worker.obj);
    match r.worker.pc {
      case Idle =>
      case Gating(_) => GateIsStatusOnly(r, reply, cs, p);
      case Registering(_) => RegisterNotes(u, r, sv, reply);
      case Deleting(_) => DeleteNotes(u, r, sv, log, reply);
      case Chaining(_) =>
        ChainIsQuiet(r, reply, cs);
      case Restoring(_) =>
        RestoreIsQuiet(r, reply, cs);
      case Initializing(_) => JobIsQuiet(u, r, sv, reply, cs);
      case FinalPatch =>
        FinalIsStatusOnly(u, r, sv, reply, p);
        FinalNotes(u, r, sv, log, reply);
    }
  }

  lemma StepOwn(u: UID, r: Resource, sv: Server, log: seq<Note>, reply: Reply)
    requires ResourceInv(u, r, sv.entries, log)
    ensures var st := Step(u, r, sv, reply);
            ResourceInv(u, st.resource, st.server.entries, log + st.notes)
  {
    StepKeepsShape(u, r, sv, reply);
    StepKeepsOwned(u, r, sv, log, reply);
    StepKeepsParented(u, r, sv, reply);
    StepKeepsBookkeeping(u, r, sv, reply);
  }

  /* ---------- preservation: everything else ---------- */

  lemma OthersUntouched(v: UID, r: Resource, entries: set<Entry>, entries': set<Entry>, log: seq<Note>, notes: seq<Note>)
    requires ResourceInv(v, r, entries, log)
    requires |notes| <= 1 && (notes != [] ==> notes[0].uid != v)
    requires Entry(v, r.name) in entries' <==> Entry(v, r.name) in entries
    ensures ResourceInv(v, r, entries', log + notes)
  {
    LogFrame(log, notes, v, r.name);
  }

  lemma UserKeepsVersions(u: UID, r: Resource, entries: set<Entry>, log: seq<Note>, e: Event)
    requires Shape(r) && Owned(u, r, entries, log) && Parented(r)
    ensures var r' := UserStep(r, e);
            Shape(r') && Owned(u, r', entries, log) &&
            (Current(r).finalizer || Current(r).deleting ==> Current(r').finalizer || Current(r').deleting)
  {
    var r' := UserStep(r, e);
    if |r'.hist| == |r.hist| + 1 {
      var v := Last(r'.hist);
      assert r'.hist == r.hist + [v];
      GrowKeepsTimeline(r, r', v);
    }
  }

  lemma UserKeeps(u: UID, r: Resource, entries: set<Entry>, log: seq<Note>, e: Event)
    requires ResourceInv(u, r, entries, log)
    ensures ResourceInv(u, UserStep(r, e), entries, log)
  {
    var r' := UserStep(r, e);
    UserKeepsVersions(u, r, entries, log, e);
    UserKeepsChildren(r, e);
    UserKeepsBookkeeping(r, e);
  }

  lemma UserKeepsChildren(r: Resource, e: Event)
    requires Parented(r)
    ensures Parented(UserStep(r, e))
  {
    if e.AddSubject? {
      assert multiset(r.subjects + [e.subject]) == multiset(r.subjects) + multiset{e.subject};
    }
  }

  lemma UserKeepsBookkeeping(r: Resource, e: Event)
    requires r.hist != [] && Bookkeeping(r)
    ensures Bookkeeping(UserStep(r, e))
  {
  }

  lemma ActKeepsInv(s: State, u: UID, reply: Reply)
    requires Inv(s)
    ensures Inv(Apply(s, Act(u, reply)))
  {
    hide Step, Shape, Owned, Parented, Bookkeeping, Sound, Justified;
    if u in s.resources {
      var r := s.resources[u];
      assert ResourceInv(u, r, s.server.entries, s.log);
      assert Timeline(r) && r.hist != [] by { ShapeHasTimeline(r); }
      var st := Step(u, r, s.server, reply);
      var s' := Apply(s, Act(u, reply));
      assert s' == State(s.resources[u := st.resource], st.server, s.log + st.notes);
      StepNotes(u, r, s.server, s.log, reply);
      StepOwn(u, r, s.server, s.log, reply);
      SoundExtends(s.log, st.notes);
      forall v <- s'.resources
        ensures ResourceInv(v, s'.resources[v], s'.server.entries, s'.log)
      {
        if v != u {
          OthersUntouched(v, s.resources[v], s.server.entries, st.server.entries, s.log, st.notes);
        }
      }
    }
  }

  lemma ShapeHasTimeline(r: Resource)
    requires Shape(r)
    ensures Timeline(r) && r.hist != []
  {
  }

  lemma NewResourceInv(u: UID, e: Event, entries: set<Entry>, log: seq<Note>)
    requires e.Create? && e.name != System
    requires forall n <- log :: n.uid != u
    requires Entry(u, e.name) !in entries
    ensures ResourceInv(u, NewResource(e.name, e.account, e.spec, e.otherFinalizers), entries, log)
  {
    UnmentionedHasNoHistory(log, u, e.name);
  }

  lemma CreateKeepsInv(s: State, e: Event)
    requires Inv(s) && e.Create?
    ensures Inv(Apply(s, e))
  {
    if e.uid !in s.resources && e.name != System {
      NewResourceInv(e.uid, e, s.server.entries, s.log);
    }
  }

  lemma UserKeepsInv(s: State, e: Event)
    requires Inv(s) && !e.Act? && !e.Create? && !e.WriteDatabase?
    ensures Inv(Apply(s, e))
  {
    hide UserStep, Shape, Owned, Parented, Bookkeeping, Sound;
    if e.uid in s.resources {
      UserKeeps(e.uid, s.resources[e.uid], s.server.entries, s.log, e);
    }
  }

  lemma ApplyKeepsInv(s: State, e: Event)
    requires Inv(s)
    ensures Inv(Apply(s, e))
  {
    match e {
      case Act(u, reply) => ActKeepsInv(s, u, reply);
      case Create(_, _, _, _, _) => CreateKeepsInv(s, e);
      case WriteDatabase(_, _) =>
      case _ => UserKeepsInv(s, e);
    }
  }

  lemma {:induction false} RunFromKeepsInv(s: State, events: seq<Event>)
    requires Inv(s)
    ensures Inv(Run(s, events))
  {
    if events != [] {
      RunFromKeepsInv(s, Front(events));
      ApplyKeepsInv(Run(s, Front(events)), Last(events));
    }
  }

  lemma RunKeepsInv(databases: map<DatabaseName, set<string>>, events: seq<Event>)
    ensures Inv(Run(Start(databases), events))
  {
    RunFromKeepsInv(Start(databases), events);
  }
}
