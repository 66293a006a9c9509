/** Deletion survives crashes: whatever point the worker died at, fault-free retries take the
    entry out and the finalizer off, in at most two attempts, while every other resource and
    every outside writer goes on as it likes. */
module SchemaDeletion {
  import opened Common
  import opened Conditions
  import opened SchemaStatus
  import opened SchemaProtocol
  import opened SchemaSafety

  /* ---------- fault-free replies ---------- */

  const HEALTHY := Servers(true, true, true, true, true, [])

  /** Reads see the current version, both servers are up, every call succeeds. */
  function GoodReply(r: Resource): Reply
    requires r.hist != []
  {
    if r.worker.pc == Idle then Read(|r.hist| - 1)
    else if r.worker.pc == Gating(Gate) then HEALTHY
    else Done
  }

  /** An event that leaves the deletion of `u` undisturbed: about something else, or a
      fault-free step of its own worker. */
  ghost predicate Calm(s: State, u: UID, e: Event) {
    e.WriteDatabase? || e.uid != u ||
    (e.Act? && u in s.resources && s.resources[u].hist != [] && e.reply == GoodReply(s.resources[u]))
  }

  ghost predicate Calmly(s: State, u: UID, events: seq<Event>) {
    events == [] || (Calmly(s, u, Front(events)) && Calm(Run(s, Front(events)), u, Last(events)))
  }

  predicate IsAct(e: Event, u: UID) {
    e.Act? && e.uid == u
  }

  /** How many of the events are steps of u's worker. */
  function Acts(u: UID, events: seq<Event>): nat {
    if events == [] then 0 else Acts(u, Front(events)) + (if IsAct(Last(events), u) then 1 else 0)
  }

  /* ---------- conditions both servers leave behind ---------- */

  function BothReady(cs: seq<Condition>): seq<Condition> {
    Observe(Observe(cs, DATABASE_READY, true, true, []), VAULT_READY, true, true, [])
  }

  /** A version whose status another fault-free look at the servers would not change. */
  ghost predicate Settled(v: Version) {
    BothReady(v.conditions) == v.conditions && v.phase == Some(PhaseOf(v))
  }

  ghost predicate Holds(cs: seq<Condition>, kind: Kind) {
    exists i | 0 <= i < |cs| :: cs[i].kind == kind && cs[i].status == StatusTrue && cs[i].reason == Coded(kind)
  }

  lemma ObservedHolds(cs: seq<Condition>, kind: Kind)
    requires UniqueKinds(cs)
    ensures UniqueKinds(Observe(cs, kind, true, true, [])) && Holds(Observe(cs, kind, true, true, []), kind)
  {
    NextGenerationIsLocal(cs, kind, StatusTrue);
    var c := Condition(kind, StatusTrue, NextGeneration(cs, kind, StatusTrue), Coded(kind));
    SetKeepsUniqueKinds(cs, c);
    SetInstalls(cs, c);
  }

  lemma HoldingIsFixed(cs: seq<Condition>, kind: Kind)
    requires UniqueKinds(cs) && Holds(cs, kind)
    ensures Observe(cs, kind, true, true, []) == cs
  {
    var i :| 0 <= i < |cs| && cs[i].kind == kind && cs[i].status == StatusTrue && cs[i].reason == Coded(kind);
    var g := GetCondition(cs, kind);
    assert g == i;
    NextGenerationIsLocal(cs, kind, StatusTrue);
    assert cs[i := cs[i]] == cs;
  }

  lemma OtherKeepsHolding(cs: seq<Condition>, kind: Kind, other: Kind)
    requires UniqueKinds(cs) && Holds(cs, kind) && other != kind
    ensures Holds(Observe(cs, other, true, true, []), kind)
  {
    var i :| 0 <= i < |cs| && cs[i].kind == kind && cs[i].status == StatusTrue && cs[i].reason == Coded(kind);
    var r := Observe(cs, other, true, true, []);
    assert r[i] == cs[i];
  }

  /** Looking twice is looking once. */
  lemma BothReadyIsIdempotent(cs: seq<Condition>)
    requires UniqueKinds(cs)
    ensures UniqueKinds(BothReady(cs))
    ensures BothReady(BothReady(cs)) == BothReady(cs)
  {
    var one := Observe(cs, DATABASE_READY, true, true, []);
    ObservedHolds(cs, DATABASE_READY);
    ObservedHolds(one, VAULT_READY);
    OtherKeepsHolding(one, DATABASE_READY, VAULT_READY);
    var two := BothReady(cs);
    HoldingIsFixed(two, DATABASE_READY);
    HoldingIsFixed(two, VAULT_READY);
  }

  /* ---------- a deletion under way ---------- */

  predicate Fresh(r: Resource) {
    r.worker.base + 1 == |r.hist|
  }

  ghost predicate Condemned(r: Resource) {
    && r.hist != [] && r.seen < |r.hist| && r.alive
    && Current(r).deleting && Current(r).finalizer && Current(r).spec.policy == PolicyDelete
    && UniqueKinds(Current(r).conditions)
  }

  ghost predicate Retrying(u: UID, r: Resource, entries: set<Entry>) {
    var w := r.worker;
    && Condemned(r)
    && (w.pc == Idle ||
        (&& (w.pc.Gating? || w.pc.Deleting?)
         && SameMeta(w.obj, Current(r)) && UniqueKinds(w.obj.conditions)))
    && (w.pc == Gating(Announce) ==> Fresh(r) && w.obj == Current(r) && w.obj.phase.None?)
    && (w.pc == Gating(Gate) && Fresh(r) ==> w.obj == Current(r))
    && (w.pc == Gating(GatePatch) ==> BothReady(w.obj.conditions) == w.obj.conditions)
    && (w.pc == Gating(GatePatch) && Fresh(r) && Settled(Current(r)) ==> w.obj.conditions == Current(r).conditions)
    && (w.pc.Deleting? ==> Fresh(r) || Settled(Current(r)))
    && (w.pc == Deleting(RemoveFinalizer) ==> Entry(u, r.name) !in entries)
  }

  /** The finalizer is off and the entry gone; the worker can only look at it again. */
  ghost predicate Finished(u: UID, r: Resource, entries: set<Entry>) {
    Over(r) && Entry(u, r.name) !in entries
  }

  ghost predicate Over(r: Resource) {
    var w := r.worker;
    && r.hist != [] && r.seen < |r.hist|
    && Current(r).deleting && !Current(r).finalizer && Current(r).spec.policy == PolicyDelete
    && (w.pc == Idle || (w.pc.Gating? && SameMeta(w.obj, Current(r))))
  }

  /** Steps left in the running attempt. */
  function StepsLeft(pc: Pc): nat {
    match pc
    case Idle => 8
    case Gating(Announce) => 7
    case Gating(Gate) => 6
    case Gating(GatePatch) => 5
    case Deleting(FindEntry) => 4
    case Deleting(DropDatabase) => 3
    case Deleting(DeleteEntry) => 2
    case _ => 1
  }

  /** Whether this attempt's Update is going to find the version it read still current. */
  ghost predicate WillBeAccepted(r: Resource)
    requires r.hist != []
  {
    match r.worker.pc
    case Idle => Settled(Current(r))
    case Gating(Announce) => false
    case Gating(_) => Fresh(r) && Settled(Current(r))
    case _ => Fresh(r)
  }

  /** An upper bound on the fault-free steps still needed. */
  ghost function Distance(r: Resource): nat
    requires r.hist != []
  {
    StepsLeft(r.worker.pc) + if WillBeAccepted(r) then 0 else 8
  }

  /* ---------- one fault-free step ---------- */

  ghost predicate Closer(u: UID, r: Resource, st: StepResult) {
    && st.resource.name == r.name
    && (Finished(u, st.resource, st.server.entries) ||
        (&& Retrying(u, st.resource, st.server.entries)
         && (r.hist != [] ==> Distance(st.resource) < Distance(r))))
  }

  lemma BeginCloser(u: UID, r: Resource, sv: Server)
    requires Retrying(u, r, sv.entries) && r.worker.pc == Idle
    ensures Closer(u, r, Only(Begin(r, GoodReply(r)), sv))
  {
    assert r.hist[|r.hist| - 1] == Current(r);
  }

  lemma AnnounceCloser(u: UID, r: Resource, sv: Server, cs: seq<Condition>, p: Phase)
    requires Retrying(u, r, sv.entries) && r.worker.pc == Gating(Announce)
    ensures Closer(u, r, Only(GateStep(r, Done, cs, p), sv))
  {
    var r1 := WithPhase(r, p);
    var r' := GateStep(r, Done, cs, p);
    assert Last(r'.hist) == Current(r).(phase := Some(p), conditions := r.worker.obj.conditions);
    assert |r'.hist| == |r.hist| + 1;
  }

  lemma GateCloser(u: UID, r: Resource, sv: Server, cs: seq<Condition>, p: Phase)
    requires Retrying(u, r, sv.entries) && r.worker.pc == Gating(Gate)
    requires cs == BothReady(r.worker.obj.conditions)
    ensures Closer(u, r, Only(GateStep(r, HEALTHY, cs, p), sv))
  {
    hide Finished, PhaseOf, BothReady, UniqueKinds;
    BothReadyIsIdempotent(r.worker.obj.conditions);
  }

  lemma GatePatchCloser(u: UID, r: Resource, sv: Server, cs: seq<Condition>, p: Phase)
    requires Retrying(u, r, sv.entries) && r.worker.pc == Gating(GatePatch)
    requires p == PhaseOf(r.worker.obj)
    ensures Closer(u, r, Only(GateStep(r, Done, cs, p), sv))
  {
    var r' := GateStep(r, Done, cs, p);
    var v := Current(r).(phase := Some(p), conditions := r.worker.obj.conditions);
    assert Current(r') == v;
    assert PhaseOf(v) == p;
    assert Settled(v);
  }

  lemma DeleteCloser(u: UID, r: Resource, sv: Server, pc: DeletePc)
    requires Retrying(u, r, sv.entries) && r.worker.pc == Deleting(pc) && pc != RemoveFinalizer
    requires r.name != System
    ensures Closer(u, r, DeleteStep(u, r, sv, Done))
  {
    var st := DeleteStep(u, r, sv, Done);
    DeleteMoves(u, r, sv, Done);
    MovedCloser(u, r, sv.entries, st);
  }

  /** Deletion steps before the last only move the program counter on. */
  lemma MovedCloser(u: UID, r: Resource, entries: set<Entry>, st: StepResult)
    requires Retrying(u, r, entries) && r.worker.pc.Deleting?
    requires st.resource == At(r, st.resource.worker.pc) && st.resource.worker.pc.Deleting?
    requires StepsLeft(st.resource.worker.pc) < StepsLeft(r.worker.pc)
    requires st.resource.worker.pc == Deleting(RemoveFinalizer) ==> Entry(u, r.name) !in st.server.entries
    ensures Closer(u, r, st)
  {
  }

  lemma RemoveCloser(u: UID, r: Resource, sv: Server)
    requires Retrying(u, r, sv.entries) && r.worker.pc == Deleting(RemoveFinalizer)
    ensures Closer(u, r, DeleteStep(u, r, sv, Done))
  {
    var r' := DeleteStep(u, r, sv, Done).resource;
    if Fresh(r) {
      assert Current(r') == Current(r).(finalizer := false);
    }
  }

  lemma StepCloser(u: UID, r: Resource, sv: Server)
    requires Retrying(u, r, sv.entries) && r.name != System
    ensures Closer(u, r, Step(u, r, sv, GoodReply(r)))
  {
    var cs, p := Noted(r.worker, GoodReply(r)), PhaseOf(r.worker.obj);
    match r.worker.pc {
      case Idle => BeginCloser(u, r, sv);
      case Gating(Announce) => AnnounceCloser(u, r, sv, cs, p);
      case Gating(Gate) => GateCloser(u, r, sv, cs, p);
      case Gating(GatePatch) => GatePatchCloser(u, r, sv, cs, p);
      case Deleting(RemoveFinalizer) => RemoveCloser(u, r, sv);
      case Deleting(pc) => DeleteCloser(u, r, sv, pc);
    }
  }

  lemma LookKeepsOver(r: Resource, reply: Reply, cs: seq<Condition>, p: Phase)
    requires Over(r) && r.worker.pc.Gating?
    ensures Over(GateStep(r, reply, cs, p))
  {
    GateIsStatusOnly(r, reply, cs, p);
    var r' := GateStep(r, reply, cs, p);
    if r'.hist != r.hist {
      var v :| r'.hist == r.hist + [v] && SameMeta(v, Current(r));
      assert Current(r') == v;
    }
  }

  lemma StepKeepsOver(u: UID, r: Resource, sv: Server)
    requires Over(r)
    ensures var st := Step(u, r, sv, GoodReply(r));
            st.resource.name == r.name && Over(st.resource) && st.server == sv
  {
    var cs, p := Noted(r.worker, GoodReply(r)), PhaseOf(r.worker.obj);
    match r.worker.pc {
      case Idle => assert r.hist[|r.hist| - 1] == Current(r);
      case Gating(_) =>
        GateIsStatusOnly(r, GoodReply(r), cs, p);
        LookKeepsOver(r, GoodReply(r), cs, p);
    }
  }

  /* ---------- runs ---------- */

  /** Finished, or still on the way with at most `n` fault-free steps to go. */
  ghost predicate Within(s: State, u: UID, n: int) {
    u in s.resources &&
    var r := s.resources[u];
    (Finished(u, r, s.server.entries) ||
     (Retrying(u, r, s.server.entries) && Distance(r) <= n))
  }

  lemma OwnStepGetsCloser(s: State, u: UID, e: Event, n: int)
    requires Inv(s) && Within(s, u, n) && IsAct(e, u) && Calm(s, u, e)
    ensures Within(Apply(s, e), u, n - 1)
  {
    var r := s.resources[u];
    assert ResourceInv(u, r, s.server.entries, s.log);
    if Finished(u, r, s.server.entries) {
      StepKeepsOver(u, r, s.server);
    } else {
      StepCloser(u, r, s.server);
    }
  }

  /** Nothing another resource or an outside writer does touches this one or its entry. */
  lemma OthersLeaveItAlone(s: State, u: UID, e: Event)
    requires Inv(s) && u in s.resources && (e.WriteDatabase? || e.uid != u)
    ensures var s' := Apply(s, e);
            && u in s'.resources && s'.resources[u] == s.resources[u]
            && (forall name :: Entry(u, name) in s'.server.entries <==> Entry(u, name) in s.server.entries)
  {
    hide Step, UserStep;
    if e.Act? && e.uid in s.resources {
      var r := s.resources[e.uid];
      assert ResourceInv(e.uid, r, s.server.entries, s.log);
      StepNotes(e.uid, r, s.server, s.log, e.reply);
    }
  }

  lemma StillWithin(s: State, s': State, u: UID, n: int)
    requires Within(s, u, n)
    requires u in s'.resources && s'.resources[u] == s.resources[u]
    requires forall name :: Entry(u, name) in s'.server.entries <==> Entry(u, name) in s.server.entries
    ensures Within(s', u, n)
  {
  }

  lemma {:induction false} CalmRunFinishes(s: State, u: UID, events: seq<Event>, n: int)
    requires Inv(s) && Within(s, u, n) && Calmly(s, u, events)
    ensures Inv(Run(s, events)) && Within(Run(s, events), u, n - Acts(u, events))
  {
    if events != [] {
      var before, e := Run(s, Front(events)), Last(events);
      CalmRunFinishes(s, u, Front(events), n);
      ApplyKeepsInv(before, e);
      if IsAct(e, u) {
        OwnStepGetsCloser(before, u, e, n - Acts(u, Front(events)));
      } else {
        OthersLeaveItAlone(before, u, e);
        StillWithin(before, Apply(before, e), u, n - Acts(u, Front(events)));
      }
    }
  }

  /** Under way: marked for deletion with our finalizer still on and policy Delete. */
  ghost predicate DeletionPending(s: State, u: UID) {
    u in s.resources &&
    var r := s.resources[u];
    r.hist != [] && r.alive &&
    Current(r).deleting && Current(r).finalizer && Current(r).spec.policy == PolicyDelete
  }

  ghost predicate Deleted(s: State, u: UID) {
    u in s.resources &&
    var r := s.resources[u];
    r.hist != [] && !Current(r).finalizer && Entry(u, r.name) !in s.server.entries
  }

  lemma CrashLeavesSixteen(s: State, u: UID)
    requires Inv(s) && DeletionPending(s, u)
    ensures Within(Apply(s, Crash(u)), u, 16)
  {
    var r := s.resources[u];
    assert ResourceInv(u, r, s.server.entries, s.log);
    assert Current(r) in r.hist;
  }

  lemma NoStepsLeft(s: State, u: UID, n: int)
    requires Within(s, u, n) && n <= 0
    ensures Deleted(s, u)
  {
  }

  lemma CalmDeletionFinishes(s: State, crashed: State, u: UID, rest: seq<Event>)
    requires Inv(s) && DeletionPending(s, u) && crashed == Apply(s, Crash(u))
    requires Calmly(crashed, u, rest) && Acts(u, rest) >= 16
    ensures Deleted(Run(crashed, rest), u)
  {
    CrashLeavesSixteen(s, u);
    ApplyKeepsInv(s, Crash(u));
    CalmRunFinishes(crashed, u, rest, 16);
    NoStepsLeft(Run(crashed, rest), u, 16 - Acts(u, rest));
  }

  /** Crash anywhere in any run. If the resource is being deleted under policy Delete, sixteen
      fault-free worker steps later its entry and its finalizer are gone, and stay gone. */
  lemma DeletionCompletes(databases: map<DatabaseName, set<string>>, events: seq<Event>, u: UID, rest: seq<Event>)
    requires DeletionPending(Run(Start(databases), events), u)
    requires Calmly(Apply(Run(Start(databases), events), Crash(u)), u, rest)
    requires Acts(u, rest) >= 16
    ensures Deleted(Run(Apply(Run(Start(databases), events), Crash(u)), rest), u)
  {
    var s := Run(Start(databases), events);
    RunKeepsInv(databases, events);
    CalmDeletionFinishes(s, Apply(s, Crash(u)), u, rest);
  }

  /* ---------- an attempt under way ---------- */

  ghost predicate PendingHere(r: Resource) {
    && r.hist != [] && r.seen < |r.hist| && r.alive
    && Current(r).deleting && Current(r).finalizer && Current(r).spec.policy == PolicyDelete
  }

  /** The attempt's look-up has failed on an entry that is there, and its Update will go through. */
  ghost predicate OnTheBrink(u: UID, r: Resource, entries: set<Entry>) {
    r.worker.pc == Deleting(RemoveFinalizer) && UpdateAccepted(r) && Entry(u, r.name) in entries
  }

  /** Fault-free steps until an attempt under way is over, at most. */
  function StepsToIdle(pc: Pc): nat {
    match pc
    case Idle => 0
    case Gating(Announce) => 8
    case Gating(Gate) => 7
    case Gating(GatePatch) => 6
    case Registering(ListCollections) => 5
    case Registering(UpsertEntry) => 4
    case Registering(AddFinalizer) => 3
    case Registering(IgnoredPatch) => 1
    case Deleting(FindEntry) => 4
    case Deleting(DropDatabase) => 3
    case Deleting(DeleteEntry) => 2
    case Deleting(RemoveFinalizer) => 1
    case Chaining(GetCredential) => 4
    case Chaining(EnsureAccount) => 3
    case Chaining(_) => 2
    case Restoring(CopyRepository) => 3
    case Restoring(CopyAuthSecret) => 3
    case Restoring(_) => 2
    case Initializing(_) => 2
    case FinalPatch => 1
  }

  /** The attempt has come to an end well, or it is still on the way and no closer to the brink. */
  ghost predicate GoesWell(u: UID, r: Resource, st: StepResult) {
    && st.resource.name == r.name
    && (Finished(u, st.resource, st.server.entries)
        || (&& PendingHere(st.resource) && !OnTheBrink(u, st.resource, st.server.entries)
            && StepsToIdle(st.resource.worker.pc) < StepsToIdle(r.worker.pc)))
  }

  lemma PatchingGoesWell(u: UID, r: Resource, sv: Server, p: Phase, pc: Pc)
    requires PendingHere(r) && pc != Deleting(RemoveFinalizer) && StepsToIdle(pc) < StepsToIdle(r.worker.pc)
    ensures GoesWell(u, r, Only(At(PatchStatus(WithPhase(r, p)), pc), sv))
    ensures GoesWell(u, r, Only(At(r, pc), sv))
  {
  }

  lemma GateGoesWell(u: UID, r: Resource, sv: Server, cs: seq<Condition>, p: Phase)
    requires PendingHere(r) && r.worker.pc.Gating?
    ensures GoesWell(u, r, Only(GateStep(r, GoodReply(r), cs, p), sv))
  {
    hide GoesWell, PatchStatus;
    match r.worker.pc.gate {
      case Announce => PatchingGoesWell(u, r, sv, p, Gating(Gate));
      case Gate => hide *; PutGoesWell(u, r, sv, cs, p);
      case GatePatch => PatchingGoesWell(u, r, sv, p, Route(r.worker.obj));
    }
  }

  lemma PutGoesWell(u: UID, r: Resource, sv: Server, cs: seq<Condition>, p: Phase)
    requires PendingHere(r) && r.worker.pc == Gating(Gate)
    ensures GoesWell(u, r, Only(GateStep(r, GoodReply(r), cs, p), sv))
  {
  }

  lemma RegisterGoesWell(u: UID, r: Resource, sv: Server)
    requires PendingHere(r) && r.worker.pc.Registering?
    ensures GoesWell(u, r, RegisterStep(u, r, sv, Done))
  {
  }

  lemma DeleteGoesWell(u: UID, r: Resource, sv: Server)
    requires PendingHere(r) && r.worker.pc.Deleting? && r.name != System && !OnTheBrink(u, r, sv.entries)
    ensures GoesWell(u, r, DeleteStep(u, r, sv, Done))
  {
  }

  lemma ChainGoesWell(u: UID, r: Resource, sv: Server, cs: seq<Condition>)
    requires PendingHere(r)
    ensures r.worker.pc.Chaining? ==> GoesWell(u, r, Only(ChainStep(r, Done, cs), sv))
    ensures r.worker.pc.Restoring? ==> GoesWell(u, r, Only(RestoreStep(r, Done, cs), sv))
    ensures r.worker.pc.Initializing? ==> GoesWell(u, r, JobStep(u, r, sv, Done, cs))
  {
  }

  lemma FinalGoesWell(u: UID, r: Resource, sv: Server, p: Phase)
    requires PendingHere(r) && r.worker.pc == FinalPatch
    ensures GoesWell(u, r, FinalStep(u, r, sv, Done, p))
  {
    hide PatchStatus;
    PatchingGoesWell(u, r, sv, p, Idle);
  }

  lemma UnderWayGoesWell(u: UID, r: Resource, sv: Server)
    requires PendingHere(r) && r.worker.pc != Idle && r.name != System && !OnTheBrink(u, r, sv.entries)
    ensures GoesWell(u, r, Step(u, r, sv, GoodReply(r)))
  {
    hide GoesWell, OnTheBrink, GateStep, RegisterStep, DeleteStep, ChainStep, RestoreStep, JobStep, FinalStep, SchemaProtocol.Noted, PhaseOf;
    var cs, p := Noted(r.worker, GoodReply(r)), PhaseOf(r.worker.obj);
    match r.worker.pc {
      case Gating(_) => GateGoesWell(u, r, sv, cs, p);
      case Registering(_) => RegisterGoesWell(u, r, sv);
      case Deleting(_) => DeleteGoesWell(u, r, sv);
      case Chaining(_) => ChainGoesWell(u, r, sv, cs);
      case Restoring(_) => ChainGoesWell(u, r, sv, cs);
      case Initializing(_) => ChainGoesWell(u, r, sv, cs);
      case FinalPatch => FinalGoesWell(u, r, sv, p);
    }
  }

  /** Within reach between two attempts, or in the middle of one that is not on the brink. */
  ghost predicate Nearing(s: State, u: UID, n: int) {
    || Within(s, u, n)
    || (u in s.resources &&
        var r := s.resources[u];
        PendingHere(r) && !OnTheBrink(u, r, s.server.entries) && StepsToIdle(r.worker.pc) + 16 <= n)
  }

  lemma IdleIsWithinSixteen(u: UID, r: Resource, entries: set<Entry>, log: seq<Note>)
    requires ResourceInv(u, r, entries, log) && PendingHere(r) && r.worker.pc == Idle
    ensures Retrying(u, r, entries) && Distance(r) <= 16
  {
    assert Current(r) in r.hist;
  }

  lemma OwnStepNears(s: State, u: UID, e: Event, n: int)
    requires Inv(s) && Nearing(s, u, n) && IsAct(e, u) && Calm(s, u, e)
    ensures Nearing(Apply(s, e), u, n - 1)
  {
    var r := s.resources[u];
    assert ResourceInv(u, r, s.server.entries, s.log);
    if !Within(s, u, n) && r.worker.pc == Idle {
      IdleIsWithinSixteen(u, r, s.server.entries, s.log);
      assert Within(s, u, n);
    }
    if Within(s, u, n) {
      OwnStepGetsCloser(s, u, e, n);
    } else {
      UnderWayGoesWell(u, r, s.server);
    }
  }

  lemma StillNearing(s: State, s': State, u: UID, n: int)
    requires Nearing(s, u, n)
    requires u in s'.resources && s'.resources[u] == s.resources[u]
    requires forall name :: Entry(u, name) in s'.server.entries <==> Entry(u, name) in s.server.entries
    ensures Nearing(s', u, n)
  {
    hide Retrying, Finished, Distance, PendingHere;
    if Within(s, u, n) {
      StillWithin(s, s', u, n);
    }
  }

  lemma {:induction false} NearingRunFinishes(s: State, u: UID, events: seq<Event>, n: int)
    requires Inv(s) && Nearing(s, u, n) && Calmly(s, u, events)
    ensures Inv(Run(s, events)) && Nearing(Run(s, events), u, n - Acts(u, events))
  {
    hide Inv, Nearing, Apply, Calm;
    if events != [] {
      var before, e := Run(s, Front(events)), Last(events);
      NearingRunFinishes(s, u, Front(events), n);
      ApplyKeepsInv(before, e);
      CalmStepNears(before, u, e, n - Acts(u, Front(events)));
    }
  }

  lemma CalmStepNears(s: State, u: UID, e: Event, n: int)
    requires Inv(s) && Nearing(s, u, n) && Calm(s, u, e)
    ensures Nearing(Apply(s, e), u, n - if IsAct(e, u) then 1 else 0)
  {
    hide Inv, Apply;
    if IsAct(e, u) {
      OwnStepNears(s, u, e, n);
    } else {
      hide Within, PendingHere, OnTheBrink;
      OthersLeaveItAlone(s, u, e);
      StillNearing(s, Apply(s, e), u, n);
    }
  }

  /* ---------- beyond the brink ---------- */

  /** The entry is there, and the finalizer is off or about to go. */
  ghost predicate Lost(s: State, u: UID) {
    u in s.resources &&
    var r := s.resources[u];
    && Entry(u, r.name) in s.server.entries
    && (Over(r) || (PendingHere(r) && OnTheBrink(u, r, s.server.entries)))
  }

  lemma RemovalIsOver(u: UID, r: Resource, sv: Server)
    requires PendingHere(r) && OnTheBrink(u, r, sv.entries)
    ensures var st := DeleteStep(u, r, sv, Done);
            st.resource.name == r.name && Over(st.resource) && st.server == sv
  {
    var r' := DeleteStep(u, r, sv, Done).resource;
    assert Current(r') == Current(r).(finalizer := false);
  }

  lemma CalmStepStaysLost(s: State, u: UID, e: Event)
    requires Inv(s) && Lost(s, u) && Calm(s, u, e)
    ensures Lost(Apply(s, e), u)
  {
    if IsAct(e, u) {
      var r := s.resources[u];
      hide Inv;
      if Over(r) {
        StepKeepsOver(u, r, s.server);
      } else {
        RemovalIsOver(u, r, s.server);
      }
    } else {
      OthersLeaveItAlone(s, u, e);
    }
  }

  lemma {:induction false} LostStaysLost(s: State, u: UID, events: seq<Event>)
    requires Inv(s) && Lost(s, u) && Calmly(s, u, events)
    ensures Inv(Run(s, events)) && Lost(Run(s, events), u)
  {
    hide Inv, Lost, Apply, Calm;
    if events != [] {
      LostStaysLost(s, u, Front(events));
      ApplyKeepsInv(Run(s, Front(events)), Last(events));
      CalmStepStaysLost(Run(s, Front(events)), u, Last(events));
    }
  }

  lemma PendingIsNearing(s: State, u: UID)
    requires Inv(s) && DeletionPending(s, u)
    ensures PendingHere(s.resources[u])
    ensures if OnTheBrink(u, s.resources[u], s.server.entries) then Lost(s, u) else Nearing(s, u, 24)
  {
    var r := s.resources[u];
    assert ResourceInv(u, r, s.server.entries, s.log);
    hide OnTheBrink, Within;
    assert StepsToIdle(r.worker.pc) <= 8;
  }

  /** Without a crash: whatever the worker is in the middle of, twenty-four fault-free steps finish a
      pending deletion if and only if the attempt under way is not on the brink, its look-up failed on
      an entry that is there and the version it read still current. */
  lemma DeletionCompletesExactly(databases: map<DatabaseName, set<string>>, events: seq<Event>, u: UID, rest: seq<Event>,
                                 s: State, t: State)
    requires s == Run(Start(databases), events) && t == Run(s, rest)
    requires DeletionPending(s, u) && Calmly(s, u, rest) && Acts(u, rest) >= 24
    ensures Deleted(t, u) <==> !OnTheBrink(u, s.resources[u], s.server.entries)
  {
    RunKeepsInv(databases, events);
    var r := s.resources[u];
    hide *;
    PendingEnds(s, u, rest, r);
  }

  lemma PendingEnds(s: State, u: UID, rest: seq<Event>, r: Resource)
    requires Inv(s) && DeletionPending(s, u) && r == s.resources[u]
    requires Calmly(s, u, rest) && Acts(u, rest) >= 24
    ensures Deleted(Run(s, rest), u) <==> !OnTheBrink(u, r, s.server.entries)
  {
    hide *;
    PendingIsNearing(s, u);
    if OnTheBrink(u, r, s.server.entries) {
      LostStaysLost(s, u, rest);
      LostIsNotDeleted(Run(s, rest), u);
    } else {
      NearingRunFinishes(s, u, rest, 24);
      NearlyDone(Run(s, rest), u, 24 - Acts(u, rest));
    }
  }

  lemma LostIsNotDeleted(s: State, u: UID)
    requires Lost(s, u)
    ensures !Deleted(s, u)
  {
  }

  lemma NearlyDone(s: State, u: UID, n: int)
    requires Nearing(s, u, n) && n <= 0
    ensures Deleted(s, u)
  {
    hide OnTheBrink;
    NoStepsLeft(s, u, n);
  }

  /** Why the look-up must not fail for another reason: at any point where it is due, on a
      version still current, such a failure lets the finalizer go and leaves the entry behind. */
  lemma FailedLookupOrphansTheEntry(u: UID, r: Resource, sv: Server)
    requires r.hist != [] && r.worker.pc == Deleting(FindEntry) && UpdateAccepted(r)
    requires Entry(u, r.name) in sv.entries
    ensures var looked := Step(u, r, sv, FindError);
            var left := Step(u, looked.resource, looked.server, Done);
            && left.resource.hist == r.hist + [Current(r).(finalizer := false)]
            && Entry(u, r.name) in left.server.entries
            && left.notes == [Released(u, true)]
  {
    var looked := DeleteStep(u, r, sv, FindError);
    assert looked.resource == At(r, Deleting(RemoveFinalizer)) && looked.server == sv;
    RemoveLeaves(u, looked.resource, sv);
  }

  lemma RemoveLeaves(u: UID, r: Resource, sv: Server)
    requires r.hist != [] && r.worker.pc == Deleting(RemoveFinalizer) && UpdateAccepted(r)
    ensures var st := DeleteStep(u, r, sv, Done);
            && st.resource.hist == r.hist + [Current(r).(finalizer := false)]
            && st.server == sv && st.notes == [Released(u, Entry(u, r.name) in sv.entries)]
  {
  }

  /* ---------- a run that gets there ---------- */

  /** A cluster with one resource. */
  function Single(u: UID, r: Resource, sv: Server, log: seq<Note>): State {
    State(map[u := r], sv, log)
  }

  lemma Goes(s: State, events: seq<Event>, u: UID, r: Resource, sv: Server, log: seq<Note>, reply: Reply, st: StepResult)
    requires Run(s, events) == Single(u, r, sv, log)
    requires r.hist != [] && Step(u, r, sv, reply) == st
    ensures Run(s, events + [Act(u, reply)]) == Single(u, st.resource, st.server, log + st.notes)
  {
    hide Step;
    var all := events + [Act(u, reply)];
    assert Front(all) == events && Last(all) == Act(u, reply);
    assert map[u := r][u := st.resource] == map[u := st.resource];
  }

  lemma Suffers(s: State, events: seq<Event>, u: UID, r: Resource, sv: Server, log: seq<Note>, e: Event)
    requires Run(s, events) == Single(u, r, sv, log)
    requires r.hist != [] && (e == Crash(u) || e == RequestDeletion(u))
    ensures Run(s, events + [e]) == Single(u, UserStep(r, e), sv, log)
  {
    hide UserStep;
    var all := events + [e];
    assert Front(all) == events && Last(all) == e;
    assert map[u := r][u := UserStep(r, e)] == map[u := UserStep(r, e)];
  }

  /** The look at both servers and the status patch after it, on a version whose status they do not
      change any more. */
  lemma LooksAgain(u: UID, r: Resource, sv: Server, v: Version, i: nat)
    requires r.worker.pc == Idle && r.alive && r.hist != [] && i == |r.hist| - 1 && r.seen <= i && Last(r.hist) == v
    requires v.phase == Some(PhaseOf(v)) && BothReady(v.conditions) == v.conditions
    ensures var read := r.(seen := i, worker := Worker(Gating(Gate), v, i, false, false));
            && Step(u, r, sv, Read(i)) == Only(read, sv)
            && Step(u, read, sv, HEALTHY) == Only(At(read, Gating(GatePatch)), sv)
            && Step(u, At(read, Gating(GatePatch)), sv, Done) == Only(At(read, Route(v)), sv)
  {
    var read := r.(seen := i, worker := Worker(Gating(Gate), v, i, false, false));
    assert Step(u, r, sv, Read(i)) == Only(read, sv);
    assert Noted(read.worker, HEALTHY) == v.conditions;
    assert PatchStatus(WithPhase(At(read, Gating(GatePatch)), PhaseOf(v))).hist == r.hist;
  }

  /** One look further on in a run. */
  lemma LookGoes(s: State, events: seq<Event>, u: UID, r: Resource, sv: Server, log: seq<Note>, v: Version, i: nat)
      returns (more: seq<Event>)
    requires Run(s, events) == Single(u, r, sv, log)
    requires r.worker.pc == Idle && r.alive && r.hist != [] && i == |r.hist| - 1 && r.seen <= i && Last(r.hist) == v
    requires v.phase == Some(PhaseOf(v)) && BothReady(v.conditions) == v.conditions
    ensures Run(s, more) == Single(u, r.(seen := i, worker := Worker(Route(v), v, i, false, false)), sv, log)
  {
    hide Run, Step, Apply, BothReady, PhaseOf;
    LooksAgain(u, r, sv, v, i);
    var read := r.(seen := i, worker := Worker(Gating(Gate), v, i, false, false));
    more := events + [Act(u, Read(i))];
    Goes(s, events, u, r, sv, log, Read(i), Only(read, sv));
    Goes(s, more, u, read, sv, log, HEALTHY, Only(At(read, Gating(GatePatch)), sv));
    more := more + [Act(u, HEALTHY)];
    Goes(s, more, u, At(read, Gating(GatePatch)), sv, log, Done, Only(At(read, Route(v)), sv));
    more := more + [Act(u, Done)];
  }

  /** A new resource after its first attempt, which died right after the status patch. */
  lemma FirstAttempt(databases: map<DatabaseName, set<string>>, u: UID, name: DatabaseName, account: string, spec: Spec)
      returns (events: seq<Event>, r: Resource)
    requires name != System
    ensures |r.hist| == 3
    ensures var v := Last(r.hist);
            && Run(Start(databases), events) == Single(u, r, Server(databases, {}), [])
            && r.worker.pc == Idle && r.alive && !r.otherFinalizers && r.name == name && r.seen == 0
            && v.phase == Some(PhaseOf(v)) && BothReady(v.conditions) == v.conditions
            && !v.deleting && !v.finalizer && v.spec == spec
  {
    hide BothReady, GetPhaseFromCondition;
    var start, sv, r0 := Start(databases), Server(databases, {}), NewResource(name, account, spec, false);
    var v0 := r0.hist[0];
    events := [Create(u, name, account, spec, false)];
    assert Front(events) == [] && Run(start, []) == start;
    assert Run(start, events) == Single(u, r0, sv, []);
    var p, both := PhaseOf(v0), BothReady([]);
    var v1 := v0.(phase := Some(p));
    var v2 := v1.(conditions := both, phase := Some(PhaseOf(v1.(conditions := both))));
    BothIsNotEmpty();
    var r1 := r0.(worker := Worker(Gating(Announce), v0, 0, false, false));
    var r2 := r0.(hist := [v0, v1], worker := Worker(Gating(Gate), v1, 0, false, false));
    var r3 := r2.(worker := Worker(Gating(GatePatch), v1.(conditions := both), 0, false, false));
    var r4 := r2.(hist := [v0, v1, v2], worker := Worker(Route(v1), v2, 0, false, false));
    FirstSteps(u, r0, sv, v0, v1, v2);
    hide Run, Step;
    Goes(start, events, u, r0, sv, [], Read(0), Only(r1, sv));
    events := events + [Act(u, Read(0))];
    Goes(start, events, u, r1, sv, [], Done, Only(r2, sv));
    events := events + [Act(u, Done)];
    Goes(start, events, u, r2, sv, [], HEALTHY, Only(r3, sv));
    events := events + [Act(u, HEALTHY)];
    Goes(start, events, u, r3, sv, [], Done, Only(r4, sv));
    events := events + [Act(u, Done)];
    Suffers(start, events, u, r4, sv, [], Crash(u));
    events, r := events + [Crash(u)], At(r4, Idle);
    BothReadyIsIdempotent([]);
  }

  lemma BothIsNotEmpty()
    ensures BothReady([]) != []
  {
  }

  lemma FirstSteps(u: UID, r0: Resource, sv: Server, v0: Version, v1: Version, v2: Version)
    requires r0.hist == [v0] && r0.seen == 0 && r0.alive && r0.worker.pc == Idle
    requires v0.phase.None? && v0.conditions == [] && v1 == v0.(phase := Some(PhaseOf(v0)))
    requires v2 == v1.(conditions := BothReady([]), phase := Some(PhaseOf(v1.(conditions := BothReady([])))))
    requires BothReady([]) != []
    ensures var both := BothReady([]);
            var r1 := r0.(worker := Worker(Gating(Announce), v0, 0, false, false));
            var r2 := r0.(hist := [v0, v1], worker := Worker(Gating(Gate), v1, 0, false, false));
            var r3 := r2.(worker := Worker(Gating(GatePatch), v1.(conditions := both), 0, false, false));
            var r4 := r2.(hist := [v0, v1, v2], worker := Worker(Route(v1), v2, 0, false, false));
            && Step(u, r0, sv, Read(0)) == Only(r1, sv) && Step(u, r1, sv, Done) == Only(r2, sv)
            && Step(u, r2, sv, HEALTHY) == Only(r3, sv) && Step(u, r3, sv, Done) == Only(r4, sv)
  {
    hide Observe, GetPhaseFromCondition;
  }

  /** Registration on an empty database, up to the finalizer. */
  lemma Registers(u: UID, r: Resource, sv: Server, v: Version)
    requires r.hist != [] && Last(r.hist) == v && r.alive && r.worker == Worker(Registering(ListCollections), v, |r.hist| - 1, false, false)
    requires r.name in sv.databases ==> sv.databases[r.name] == {}
    ensures var sv' := sv.(entries := sv.entries + {Entry(u, r.name)});
            var v' := v.(finalizer := true);
            && Step(u, r, sv, Done) == StepResult(At(r, Registering(UpsertEntry)), sv, [Listed(u, r.name, true)])
            && Step(u, At(r, Registering(UpsertEntry)), sv, Done) ==
                 StepResult(At(r, Registering(AddFinalizer)), sv', [Registered(u, r.name)])
            && Step(u, At(r, Registering(AddFinalizer)), sv', Done) ==
                 Only(r.(hist := r.hist + [v'], worker := r.worker.(pc := Chaining(EnsureEngine), obj := v', base := |r.hist|)), sv')
  {
  }

  /** It happens: for any empty database and any spec with policy Delete there is a run in which one
      failed look-up leaves the entry behind when the object goes. */
  lemma FailedLookupHappens(databases: map<DatabaseName, set<string>>, u: UID, name: DatabaseName, account: string, spec: Spec)
      returns (events: seq<Event>)
    requires name != System && spec.policy == PolicyDelete
    requires name in databases ==> databases[name] == {}
    ensures var s := Run(Start(databases), events);
            && u in s.resources && !s.resources[u].alive && s.resources[u].hist != [] && !Current(s.resources[u]).finalizer
            && Entry(u, name) in s.server.entries && s.log != [] && Last(s.log) == Released(u, true)
  {
    hide BothReady, GetPhaseFromCondition, Run, Step;
    var start, sv := Start(databases), Server(databases, {});
    var r;
    events, r := FirstAttempt(databases, u, name, account, spec);
    var v := Last(r.hist);
    events := LookGoes(start, events, u, r, sv, [], v, 2);
    r := r.(seen := 2, worker := Worker(Registering(ListCollections), v, 2, false, false));
    Registers(u, r, sv, v);
    var sv' := sv.(entries := sv.entries + {Entry(u, name)});
    var log := [Listed(u, name, true)];
    Goes(start, events, u, r, sv, [], Done, StepResult(At(r, Registering(UpsertEntry)), sv, log));
    events := events + [Act(u, Done)];
    Goes(start, events, u, At(r, Registering(UpsertEntry)), sv, [] + log, Done,
         StepResult(At(r, Registering(AddFinalizer)), sv', [Registered(u, name)]));
    events, log := events + [Act(u, Done)], [] + log + [Registered(u, name)];
    var v3 := v.(finalizer := true);
    var owned := r.(hist := r.hist + [v3], worker := r.worker.(pc := Chaining(EnsureEngine), obj := v3, base := 3));
    Goes(start, events, u, At(r, Registering(AddFinalizer)), sv', log, Done, Only(owned, sv'));
    events, log := events + [Act(u, Done)], log + [];
    Suffers(start, events, u, owned, sv', log, Crash(u));
    events := events + [Crash(u)];
    Suffers(start, events, u, At(owned, Idle), sv', log, RequestDeletion(u));
    events := events + [RequestDeletion(u)];
    events := Orphans(start, events, u, UserStep(At(owned, Idle), RequestDeletion(u)), sv', log, v3.(deleting := true));
  }

  /** The last attempt: the look-up fails, the finalizer goes. */
  lemma Orphans(s: State, events: seq<Event>, u: UID, r: Resource, sv: Server, log: seq<Note>, v: Version) returns (all: seq<Event>)
    requires Run(s, events) == Single(u, r, sv, log) && Entry(u, r.name) in sv.entries
    requires r.worker.pc == Idle && r.alive && !r.otherFinalizers && r.hist != [] && r.seen < |r.hist| && Last(r.hist) == v
    requires v.phase == Some(PhaseOf(v)) && BothReady(v.conditions) == v.conditions
    requires v.deleting && v.finalizer && v.spec.policy == PolicyDelete
    ensures var t := Run(s, all);
            && u in t.resources && !t.resources[u].alive && t.resources[u].hist != [] && !Current(t.resources[u]).finalizer
            && Entry(u, r.name) in t.server.entries && t.log != [] && Last(t.log) == Released(u, true)
  {
    hide BothReady, GetPhaseFromCondition, Run, Step;
    var i := |r.hist| - 1;
    all := LookGoes(s, events, u, r, sv, log, v, i);
    var due := r.(seen := i, worker := Worker(Deleting(FindEntry), v, i, false, false));
    FailedLookupOrphansTheEntry(u, due, sv);
    var looked := Step(u, due, sv, FindError);
    Goes(s, all, u, due, sv, log, FindError, looked);
    all := all + [Act(u, FindError)];
    LookupMoves(u, due, sv);
    Goes(s, all, u, looked.resource, looked.server, log + looked.notes, Done, Step(u, looked.resource, looked.server, Done));
    all := all + [Act(u, Done)];
  }

  lemma LookupMoves(u: UID, r: Resource, sv: Server)
    requires r.hist != [] && r.worker.pc == Deleting(FindEntry) && UpdateAccepted(r)
    ensures var looked := Step(u, r, sv, FindError);
            && looked.resource.hist == r.hist
            && Step(u, looked.resource, looked.server, Done).resource.alive == r.otherFinalizers
  {
  }
}
