/** The reconciler as it is written: methods with early returns that change an in-memory copy of
    the object and call the API.

    `script` decides how the world behaves: before each call other events happen, then the call
    gets its reply. When the script is used up the process dies in the middle of what it does.
    `Attempted` is what the step system of SchemaProtocol comes to on a script; each method promises
    that the attempt still ends there, and what is stored when it succeeds, so whatever holds of all
    runs of the step system holds of this code. */
module SchemaReconciler {
  import opened Common
  import opened Conditions
  import opened SchemaStatus
  import opened SchemaProtocol
  import opened SchemaSafety

  /** What others do before a call, and how the call then goes. */
  datatype Tick = Tick(before: seq<Event>, reply: Reply)

  /** Events that are not steps of this worker. */
  predicate Foreign(u: UID, e: Event) {
    e.WriteDatabase? || e.uid != u || !(e.Act? || e.Crash?)
  }

  predicate AllForeign(u: UID, script: seq<Tick>) {
    forall t <- script :: forall e <- t.before :: Foreign(u, e)
  }

  predicate Stored(s: State, u: UID) {
    u in s.resources && s.resources[u].hist != []
  }

  function Place(s: State, u: UID, w: Worker): State
    requires u in s.resources
  {
    s.(resources := s.resources[u := s.resources[u].(worker := w)])
  }

  function Assemble(others: map<UID, Resource>, u: UID, r: Resource, sv: Server, log: seq<Note>): State {
    State(others[u := r], sv, log)
  }

  /** What events of others cannot do to a resource: rename it, drop children or subjects, undo
      versions, or move its cache. */
  predicate Kept(r: Resource, r': Resource) {
    && r'.name == r.name && r'.account == r.account && r'.seen == r.seen && r'.children == r.children
    && r.subjects <= r'.subjects && r.hist <= r'.hist
  }

  lemma UserStepKeeps(r: Resource, e: Event)
    requires r.hist != []
    ensures UserStep(r, e).hist != [] && Kept(r, UserStep(r, e))
  {
  }

  lemma ForeignKeeps(s: State, u: UID, e: Event)
    requires Stored(s, u) && Foreign(u, e)
    ensures Stored(Apply(s, e), u) && Kept(s.resources[u], Apply(s, e).resources[u])
  {
    hide UserStep, Step;
    if !e.WriteDatabase? && e.uid == u {
      UserStepKeeps(s.resources[u], e);
    }
  }

  lemma ForeignStep(s: State, u: UID, w: Worker, e: Event)
    requires Stored(s, u) && Foreign(u, e)
    ensures Apply(Place(s, u, w), e) == Place(Apply(s, e), u, w)
  {
    ForeignKeeps(s, u, e);
    var lhs, rhs := Apply(Place(s, u, w), e), Place(Apply(s, e), u, w);
    if e.Act? {
      assert Place(s, u, w).resources[u].hist != [];
      assert lhs.resources == rhs.resources;
    } else if e.Create? || e.WriteDatabase? {
      assert lhs.resources == rhs.resources;
    } else {
      ForeignUserStep(s, u, w, e);
    }
  }

  lemma ForeignUserStep(s: State, u: UID, w: Worker, e: Event)
    requires Stored(s, u) && Foreign(u, e) && !e.Act? && !e.Create? && !e.WriteDatabase?
    requires Stored(Apply(s, e), u)
    ensures Apply(Place(s, u, w), e) == Place(Apply(s, e), u, w)
  {
    var r := s.resources[u];
    if e.uid == u {
      assert UserStep(r.(worker := w), e) == UserStep(r, e).(worker := w);
      assert Apply(Place(s, u, w), e).resources == Place(Apply(s, e), u, w).resources;
    } else {
      assert Apply(Place(s, u, w), e).resources == Place(Apply(s, e), u, w).resources;
    }
  }

  lemma {:induction false} ForeignRun(s: State, u: UID, w: Worker, events: seq<Event>)
    requires Stored(s, u) && forall e <- events :: Foreign(u, e)
    ensures Stored(Run(s, events), u) && Kept(s.resources[u], Run(s, events).resources[u])
    ensures Run(Place(s, u, w), events) == Place(Run(s, events), u, w)
  {
    hide Apply;
    if events != [] {
      ForeignRun(s, u, w, Front(events));
      ForeignKeeps(Run(s, Front(events)), u, Last(events));
      ForeignStep(Run(s, Front(events)), u, w, Last(events));
    }
  }

  /* ---------- the cluster, taken apart ---------- */

  lemma PlaceAssembled(others: map<UID, Resource>, u: UID, r: Resource, w: Worker, sv: Server, log: seq<Note>)
    ensures Place(Assemble(others, u, r, sv, log), u, w) == Assemble(others, u, r.(worker := w), sv, log)
  {
    assert Place(Assemble(others, u, r, sv, log), u, w).resources == others[u := r.(worker := w)];
  }

  lemma AssemblePlaced(s: State, u: UID, w: Worker)
    requires u in s.resources
    ensures Place(s, u, w) == Assemble(s.resources, u, s.resources[u].(worker := w), s.server, s.log)
  {
  }

  lemma HeadIsForeign(u: UID, script: seq<Tick>)
    requires AllForeign(u, script) && script != []
    ensures (forall e <- script[0].before :: Foreign(u, e)) && AllForeign(u, script[1..])
  {
  }

  lemma CrashStep(others: map<UID, Resource>, u: UID, r: Resource, w: Worker, sv: Server, log: seq<Note>)
    requires r.hist != []
    ensures Apply(Assemble(others, u, r.(worker := w), sv, log), Crash(u)) ==
              Assemble(others, u, r.(worker := w.(pc := Idle)), sv, log)
  {
    assert others[u := r.(worker := w)][u := r.(worker := w.(pc := Idle))] == others[u := r.(worker := w.(pc := Idle))];
  }

  lemma ActStep(others: map<UID, Resource>, u: UID, r: Resource, sv: Server, log: seq<Note>, reply: Reply)
    requires r.hist != []
    ensures var st := Step(u, r, sv, reply);
            Apply(Assemble(others, u, r, sv, log), Act(u, reply)) ==
              Assemble(others, u, st.resource, st.server, log + st.notes)
  {
    var st := Step(u, r, sv, reply);
    assert others[u := r][u := st.resource] == others[u := st.resource];
  }

  /* ---------- steps of the step system, as the code sees them ---------- */

  function AfterPatch(pc: Pc, obj: Version): Pc {
    if pc == Gating(Announce) then Gating(Gate)
    else if pc == Gating(GatePatch) then Route(obj)
    else Idle
  }

  lemma StatusStep(u: UID, r: Resource, sv: Server, reply: Reply, phase: Phase)
    requires r.hist != []
    requires r.worker.pc in {Gating(Announce), Gating(GatePatch), Registering(IgnoredPatch), FinalPatch}
    requires phase == if r.worker.pc == Registering(IgnoredPatch) then Ignored else PhaseOf(r.worker.obj)
    ensures Step(u, r, sv, reply) ==
              if reply == Done && r.alive then
                StepResult(At(PatchStatus(WithPhase(r, phase)), AfterPatch(r.worker.pc, r.worker.obj)), sv,
                           if r.worker.pc != FinalPatch then []
                           else [Concluded(u, r.worker.obj.spec.restore, r.worker.sawJob, phase, r.worker.obj.conditions)])
              else Only(At(r, Idle), sv)
  {
  }

  lemma GateAnswer(u: UID, r: Resource, w: Worker, sv: Server, reply: Reply)
    requires r.hist != [] && w.pc == Gating(Gate)
    ensures Step(u, r.(worker := w), sv, reply) ==
              if reply.Servers? && reply.mongoFound && reply.vaultFound && reply.ready then
                StepResult(r.(worker := w.(pc := Gating(GatePatch),
                    obj := w.obj.(conditions :=
                             Observe(Observe(w.obj.conditions, DATABASE_READY, true, reply.mongoHealthy, reply.error),
                                     VAULT_READY, true, reply.vaultHealthy, reply.error)))), sv, [])
              else StepResult(r.(worker := w.(pc := Idle)), sv, [])
  {
  }

  lemma EngineAnswer(u: UID, r: Resource, sv: Server, reply: Reply)
    requires r.hist != [] && r.worker.pc == Chaining(EnsureEngine)
    ensures Step(u, r, sv, reply) ==
              if reply.Ensured? then
                Only(Put(r.(children := r.children + {SecretEngine}, worker := r.worker.(engineSucceeded := reply.succeeded)),
                         Chaining(EnsureRole),
                         Observe(r.worker.obj.conditions, SECRET_ENGINE_READY, reply.found, reply.healthy, reply.error)), sv)
              else Only(At(r, FinalPatch), sv)
  {
  }

  lemma RoleAnswer(u: UID, r: Resource, sv: Server, reply: Reply)
    requires r.hist != [] && r.worker.pc == Chaining(EnsureRole)
    ensures Step(u, r, sv, reply) ==
              if reply.Ensured? then
                Only(Put(r.(children := r.children + {Role}),
                         if r.worker.engineSucceeded && reply.succeeded then Chaining(EnsureAccount) else FinalPatch,
                         Observe(r.worker.obj.conditions, ROLE_READY, reply.found, reply.healthy, reply.error)), sv)
              else Only(At(r, FinalPatch), sv)
  {
  }

  lemma RequestAnswer(u: UID, r: Resource, sv: Server, reply: Reply)
    requires r.hist != [] && r.worker.pc == Chaining(EnsureRequest)
    ensures var cs := r.worker.obj.conditions;
            var auto := r.worker.obj.spec.autoApproval;
            Step(u, r, sv, reply) ==
              if reply.Ensured? then
                Only(Put(r.(children := r.children + {AccessRequest}, subjects := WithSubject(r.subjects, r.account)),
                         if auto then Chaining(Approve) else AfterApproval(reply.succeeded),
                         if auto then cs else Observe(cs, ACCESS_REQUEST_READY, reply.found, reply.healthy, reply.error)), sv)
              else Only(At(r, FinalPatch), sv)
  {
  }

  lemma ApproveAnswer(u: UID, r: Resource, sv: Server, reply: Reply)
    requires r.hist != [] && r.worker.pc == Chaining(Approve)
    ensures Step(u, r, sv, reply) ==
              if reply.Ensured? then
                Only(Put(r, AfterApproval(reply.succeeded),
                         Observe(r.worker.obj.conditions, ACCESS_REQUEST_READY, reply.found, reply.healthy, reply.error)), sv)
              else Only(At(r, FinalPatch), sv)
  {
  }

  lemma FoundAnswer(u: UID, r: Resource, sv: Server, reply: Reply, child: Child, kind: Kind)
    requires r.hist != []
    requires (r.worker.pc == Restoring(CopyRepositorySecret) && child == RepositorySecret && kind == REPOSITORY_FOUND)
          || (r.worker.pc == Restoring(SchemaProtocol.EnsureAppBinding) && child == AppBinding && kind == APPBINDING_FOUND)
    ensures Step(u, r, sv, reply) ==
              if reply.Ensured? then
                Only(Put(r.(children := r.children + {child}),
                         Restoring(if child == RepositorySecret then CopyAuthSecret else EnsureRestore),
                         Observe(r.worker.obj.conditions, kind, reply.found, true, reply.error)), sv)
              else Only(At(r, FinalPatch), sv)
  {
  }

  lemma RestoreAnswer(u: UID, r: Resource, sv: Server, reply: Reply)
    requires r.hist != [] && r.worker.pc == Restoring(EnsureRestore)
    ensures Step(u, r, sv, reply) ==
              if reply.Restored? then
                Only(Put(r.(children := r.children + {RestoreSession}), FinalPatch,
                         ObserveRestore(r.worker.obj.conditions, reply.found, reply.outcome, reply.error)), sv)
              else Only(At(r, FinalPatch), sv)
  {
  }

  lemma ReadJobAnswer(u: UID, r: Resource, sv: Server, reply: Reply)
    requires r.hist != [] && r.worker.pc == Initializing(ReadJob)
    ensures var init := r.worker.obj.spec.init;
            Step(u, r, sv, reply) ==
              if !reply.Ensured? then Only(At(r, FinalPatch), sv)
              else if init.None? then Only(At(r, Idle), sv)
              else Only(Put(r.(worker := r.worker.(sawJob := true)),
                            if init.value.initialized then FinalPatch else Initializing(MakeJob),
                            Observe(r.worker.obj.conditions, JOB_COMPLETED, reply.found, reply.healthy, reply.error)), sv)
  {
  }

  lemma MakeJobAnswer(u: UID, r: Resource, sv: Server, reply: Reply)
    requires r.hist != [] && r.worker.pc == Initializing(MakeJob) && r.worker.obj.spec.init.Some?
    ensures Step(u, r, sv, reply) ==
              if reply.Ensured? && r.worker.obj.spec.init.value.hasScript then
                StepResult(Put(r.(children := r.children + {Job}), FinalPatch,
                               Observe(r.worker.obj.conditions, JOB_COMPLETED, reply.found, reply.healthy, reply.error)),
                           sv, [JobMade(u, r.worker.obj.spec.restore)])
              else Only(At(r, FinalPatch), sv)
  {
  }

  /** Where a run stands that goes no further: at its last patch, unless the process is gone. */
  function Stopped(dead: bool): Pc {
    if dead then Idle else FinalPatch
  }

  /* ---------- what an attempt has to come to ---------- */

  /** The step system driven by a script: the world moves on, the worker takes the step its reply
      allows, and so on until it is idle. When the replies run out the process dies. */
  ghost function Attempted(u: UID, s: State, script: seq<Tick>): State
    decreases |script|, 0
  {
    if script == [] then Apply(s, Crash(u))
    else Rest(u, Apply(Run(s, script[0].before), Act(u, script[0].reply)), script[1..])
  }

  /** What is left of an attempt under way. */
  ghost function Rest(u: UID, s: State, script: seq<Tick>): State
    decreases |script|, 1
  {
    if u in s.resources && s.resources[u].worker.pc == Idle then s else Attempted(u, s, script)
  }

  /** What recording one look at an object does to a condition list with one entry per kind: that
      kind is there and as true as the look was good, every other kind is as it was. */
  ghost predicate Tells(before: seq<Condition>, after: seq<Condition>, kind: Kind, good: bool) {
    UniqueKinds(before) ==>
      && UniqueKinds(after) && HasCondition(after, kind) && (IsConditionTrue(after, kind) <==> good)
      && forall other: Kind | other != kind ::
           && (HasCondition(after, other) <==> HasCondition(before, other))
           && (IsConditionTrue(after, other) <==> IsConditionTrue(before, other))
  }

  lemma RecordedTells(cs: seq<Condition>, kind: Kind, status: Status, reason: Reason)
    ensures Tells(cs, Recorded(cs, kind, status, reason), kind, status == StatusTrue)
  {
    if UniqueKinds(cs) {
      var c := Condition(kind, status, NextGeneration(cs, kind, status), reason);
      NextGenerationIsLocal(cs, kind, status);
      SetKeepsUniqueKinds(cs, c);
      SetInstalls(cs, c);
      forall other: Kind | other != kind
        ensures HasCondition(SetCondition(cs, c), other) <==> HasCondition(cs, other)
        ensures IsConditionTrue(SetCondition(cs, c), other) <==> IsConditionTrue(cs, other)
      {
        SetFramesOtherKinds(cs, c, other);
      }
    }
  }

  /** With one entry per kind, the reason just recorded is the one the list gives for that kind. */
  lemma RecordedReason(cs: seq<Condition>, kind: Kind, status: Status, reason: Reason)
    requires kind == RESTORE_SESSION
    ensures UniqueKinds(cs) ==> (FailedRestoreIn(Recorded(cs, kind, status, reason)) <==> reason == RESTORE_FAILED_REASON)
  {
    if UniqueKinds(cs) {
      var c := Condition(kind, status, NextGeneration(cs, kind, status), reason);
      NextGenerationIsLocal(cs, kind, status);
      SetKeepsUniqueKinds(cs, c);
      SetInstalls(cs, c);
    }
  }

  /** What Patched promises is PatchStatus, if the worker's copy carries the same status. */
  lemma PatchedIsPatchStatus(r: Resource, r': Resource, w: Worker)
    requires r.hist != [] && r' == r.(hist := r'.hist) && r.hist <= r'.hist
    requires var v := Last(r'.hist);
             v.conditions == w.obj.conditions && v.phase == w.obj.phase && SameMeta(v, Last(r.hist))
    requires |r'.hist| == |r.hist| + if Last(r.hist).conditions == w.obj.conditions && Last(r.hist).phase == w.obj.phase then 0 else 1
    ensures PatchStatus(r.(worker := w)) == r'.(worker := w)
  {
    assert Last(r'.hist) == Last(r.hist).(phase := w.obj.phase, conditions := w.obj.conditions);
    assert r'.hist == r.hist || r'.hist == r.hist + [Last(r'.hist)];
  }

  /** A status patch that goes through, as the code makes it. */
  lemma PatchedStep(u: UID, r: Resource, r': Resource, w: Worker, sv: Server, phase: Phase, obj: Version)
    requires r.hist != [] && r.alive && r' == r.(hist := r'.hist) && r.hist <= r'.hist
    requires w.pc in {Gating(Announce), Gating(GatePatch), Registering(IgnoredPatch), FinalPatch}
    requires phase == (if w.pc == Registering(IgnoredPatch) then Ignored else PhaseOf(w.obj))
    requires obj == w.obj.(phase := Some(phase))
    requires var v := Last(r'.hist);
             v.conditions == obj.conditions && v.phase == obj.phase && SameMeta(v, Last(r.hist))
    requires |r'.hist| == |r.hist| + if Last(r.hist).conditions == obj.conditions && Last(r.hist).phase == obj.phase then 0 else 1
    ensures Step(u, r.(worker := w), sv, Done) ==
              StepResult(r'.(worker := w.(pc := AfterPatch(w.pc, obj), obj := obj)), sv,
                         if w.pc != FinalPatch then [] else [Concluded(u, obj.spec.restore, w.sawJob, phase, obj.conditions)])
  {
    hide PatchStatus, PhaseOf, Step;
    StatusStep(u, r.(worker := w), sv, Done, phase);
    PatchedIsPatchStatus(r, r', w.(obj := obj));
    assert AfterPatch(w.pc, obj) == AfterPatch(w.pc, w.obj);
  }

  /** A status patch that does not. */
  lemma RefusedStep(u: UID, r: Resource, w: Worker, sv: Server, reply: Reply)
    requires r.hist != [] && (reply != Done || !r.alive)
    requires w.pc in {Gating(Announce), Gating(GatePatch), Registering(IgnoredPatch), FinalPatch}
    ensures Step(u, r.(worker := w), sv, reply) == StepResult(r.(worker := w.(pc := Idle)), sv, [])
  {
    hide PatchStatus, PhaseOf, Step;
    StatusStep(u, r.(worker := w), sv, reply, if w.pc == Registering(IgnoredPatch) then Ignored else PhaseOf(w.obj));
  }

  /** The next calls of a script grant the access request, auto-approval included. */
  predicate Approving(script: seq<Tick>, autoApproval: bool) {
    && |script| >= (if autoApproval then 2 else 1) && script[0].reply.Ensured?
    && var last := script[if autoApproval then 1 else 0].reply;
       last.Ensured? && last.succeeded
  }

  /** They grant everything EnsureAccess asks for. */
  predicate Granting(script: seq<Tick>, autoApproval: bool) {
    && |script| >= (if autoApproval then 6 else 5)
    && script[0].reply.Ensured? && script[0].reply.succeeded
    && script[1].reply.Ensured? && script[1].reply.succeeded
    && script[2].reply == Done
    && Approving(script[3..], autoApproval)
    && script[if autoApproval then 5 else 4].reply == Done
  }

  class Reconciler {
    const uid: UID
    // stored outside this process: our resource, all resources, the Mongo server, what happened
    var me: Resource
    var others: map<UID, Resource>
    var server: Server
    var log: seq<Note>
    var script: seq<Tick>
    // the process: its variables, with the place in the code, and whether it was killed or panicked
    var w: Worker
    var dead: bool
    // the last reply, and the run of the step system this amounts to
    ghost var answer: Reply
    ghost const origin: State
    ghost var trace: seq<Event>

    ghost function Cluster(): State
      reads this
    {
      Assemble(others, uid, me.(worker := w), server, log)
    }

    ghost predicate Valid()
      reads this
    {
      && me.hist != []
      && Cluster() == Run(origin, trace)
      && AllForeign(uid, script)
    }

    /** Where an attempt begun now ends, where the one under way ends, and where it ends if the
        call just made has this reply. */
    ghost function Begun(): State
      reads this
    {
      Attempted(uid, Cluster(), script)
    }

    ghost function Ahead(): State
      reads this
    {
      Rest(uid, Cluster(), script)
    }

    ghost function Answered(reply: Reply): State
      reads this
    {
      Rest(uid, Apply(Cluster(), Act(uid, reply)), script)
    }

    /** One call has been made of this script: the process died if there was none left. */
    ghost predicate Used(before: seq<Tick>)
      reads this
    {
      if before == [] then dead && script == [] else !dead && answer == before[0].reply && script == before[1..]
    }

    /** The run so far goes on from an earlier one, and the attempt still ends where it had to. */
    ghost predicate Continues(before: seq<Event>, goal: State)
      reads this
    {
      before <= trace && Ahead() == goal
    }

    constructor (uid: UID, cluster: State, script: seq<Tick>)
      requires Stored(cluster, uid) && cluster.resources[uid].worker.pc == Idle
      requires AllForeign(uid, script)
      ensures Valid() && w.pc == Idle && trace == [] && origin == cluster && this.uid == uid
    {
      this.uid, this.script, this.dead := uid, script, false;
      this.me, this.others, this.server, this.log := cluster.resources[uid], cluster.resources, cluster.server, cluster.log;
      this.w := cluster.resources[uid].worker;
      this.origin, this.trace, this.answer := cluster, [], Error;
      new;
      assert me.(worker := w) == me;
      assert Cluster().resources == cluster.resources;
    }

    /* ---------- talking to the world ---------- */

    /** The world moves on, then the next call gets its reply; None when the process dies. */
    method Call() returns (reply: Option<Reply>)
      requires Valid()
      modifies this
      ensures Valid() && old(trace) <= trace
      ensures dead == reply.None? && Used(old(script))
      ensures w == if dead then old(w).(pc := Idle) else old(w)
      ensures Kept(old(me), me)
      ensures old(w).pc != Idle ==> old(Begun()) == old(Ahead())
      ensures if dead then Ahead() == old(Begun()) else Answered(reply.value) == old(Begun()) && answer == reply.value
    {
      hide Run, Apply, AllForeign;
      dead := script == [];
      if dead {
        CrashStep(others, uid, me, w, server, log);
        RunOne(origin, trace, Crash(uid));
        w := w.(pc := Idle);
        trace := trace + [Crash(uid)];
        return None;
      }
      var t := script[0];
      HeadIsForeign(uid, script);
      RunConcat(origin, trace, t.before);
      ForeignRun(Assemble(others, uid, me, server, log), uid, w, t.before);
      PlaceAssembled(others, uid, me, w, server, log);
      var now := Run(Assemble(others, uid, me, server, log), t.before);
      AssemblePlaced(now, uid, w);
      me, others, server, log, script := now.resources[uid], now.resources, now.server, now.log, script[1..];
      trace, answer := trace + t.before, t.reply;
      reply := Some(t.reply);
    }

    /** A call has happened: store its outcome, and note that the step system took this step. */
    method Commit(reply: Reply, r: Resource, sv: Server, notes: seq<Note>, w': Worker)
      requires Valid() && r.hist != []
      requires Step(uid, me.(worker := w), server, reply) == StepResult(r.(worker := w'), sv, notes)
      modifies this
      ensures Valid() && Continues(old(trace), old(Answered(reply)))
      ensures me == r && server == sv && log == old(log) + notes && w == w'
      ensures dead == old(dead) && answer == old(answer) && script == old(script)
    {
      hide Run, Step, AllForeign, Rest;
      ActStep(others, uid, me.(worker := w), server, log, reply);
      RunOne(origin, trace, Act(uid, reply));
      me, server, log, w := r, sv, log + notes, w';
      trace := trace + [Act(uid, reply)];
    }

    /** The process ends itself, with nothing more written. */
    method Panic()
      requires Valid() && w.pc == Idle
      modifies this`dead
      ensures Valid() && dead && Ahead() == old(Ahead())
    {
      dead := true;
    }

    /** Read the object through the cache: a stored version, never an older one than before. */
    method Get() returns (found: bool)
      requires Valid() && w.pc == Idle
      modifies this
      ensures Valid() && Continues(old(trace), old(Begun())) && Used(old(script))
      ensures w.pc == if !found then Idle else if w.obj.phase.None? then Gating(Announce) else Gating(Gate)
      ensures found ==> old(me).seen <= me.seen == w.base < |me.hist| && w.obj == me.hist[w.base]
      ensures found <==> !dead && answer.Read? && old(me).seen <= answer.version < |me.hist|
      ensures found ==> w.base == answer.version
    {
      hide Run, AllForeign, Cluster, Ahead, Begun, Answered;
      var reply := Call();
      if reply.None? {
        return false;
      }
      if reply.value.Read? && me.seen <= reply.value.version < |me.hist| {
        var version := reply.value.version;
        var obj := me.hist[version];
        var pc := if obj.phase.None? then Gating(Announce) else Gating(Gate);
        Commit(reply.value, me.(seen := version), server, [], Worker(pc, obj, version, false, false));
        return true;
      }
      Commit(reply.value, me, server, [], w);
      return false;
    }

    /* ---------- status ---------- */

    static method StatusFor(obj: Version, kind: Kind, found: bool, healthy: bool, error: string) returns (r: Version)
      ensures r == obj.(conditions := Observe(obj.conditions, kind, found, healthy, error))
      ensures Tells(obj.conditions, r.conditions, kind, found && healthy)
    {
      var status, reason := StatusTrue, Coded(kind);
      if !found {
        status, reason := StatusFalse, ErrorText(error);
      } else if !healthy {
        status := StatusFalse;
      }
      RecordedTells(obj.conditions, kind, status, reason);
      r := obj.(conditions := Recorded(obj.conditions, kind, status, reason));
    }

    static method StatusForRestoreSession(obj: Version, found: bool, outcome: RestorePhase, error: string) returns (r: Version)
      ensures r == obj.(conditions := ObserveRestore(obj.conditions, found, outcome, error))
      ensures Tells(obj.conditions, r.conditions, RESTORE_SESSION, found && outcome != RestoreIsRunning)
      ensures UniqueKinds(obj.conditions) ==> (FailedRestoreIn(r.conditions) <==> found && outcome == RestoreHasFailed)
    {
      var status, reason := StatusFalse, RESTORE_SUCCEEDED_REASON;
      if !found {
        reason := ErrorText(error);
      } else if outcome == RestoreHasFailed {
        status, reason := StatusTrue, RESTORE_FAILED_REASON;
      } else if outcome == RestoreHasSucceeded {
        status := StatusTrue;
      }
      RecordedTells(obj.conditions, RESTORE_SESSION, status, reason);
      RecordedReason(obj.conditions, RESTORE_SESSION, status, reason);
      r := obj.(conditions := Recorded(obj.conditions, RESTORE_SESSION, status, reason));
    }

    /** Put the in-memory status onto the stored object: everything but the status is the last
        version's, and a new version is made only when something differs. */
    static method Patched(r: Resource, obj: Version) returns (r': Resource)
      requires r.hist != []
      ensures r' == r.(hist := r'.hist) && r.hist <= r'.hist
      ensures var v := Last(r'.hist);
              v.conditions == obj.conditions && v.phase == obj.phase && SameMeta(v, Last(r.hist))
      ensures |r'.hist| == |r.hist| + if Last(r.hist).conditions == obj.conditions && Last(r.hist).phase == obj.phase then 0 else 1
    {
      var v := Last(r.hist).(phase := obj.phase, conditions := obj.conditions);
      r' := r;
      if v != Last(r.hist) {
        r' := r.(hist := r.hist + [v]);
      }
    }

    method UpdateSchemaMongoDBDatabaseStatus(ignored: bool) returns (ok: bool)
      requires Valid()
      requires w.pc in {Gating(Announce), Gating(GatePatch), Registering(IgnoredPatch), FinalPatch}
      requires ignored <==> w.pc == Registering(IgnoredPatch)
      modifies this
      ensures Valid() && Continues(old(trace), old(Ahead())) && Used(old(script))
      ensures w.pc == if ok then AfterPatch(old(w).pc, w.obj) else Idle
      ensures w.obj.conditions == old(w).obj.conditions && SameMeta(w.obj, old(w).obj)
      ensures ok ==> var v := Last(me.hist);
                     && v.conditions == w.obj.conditions && v.phase == w.obj.phase
                     && v.phase == Some(if ignored then Ignored else GetPhaseFromCondition(v.conditions, w.obj.spec.restore))
      ensures ok <==> !dead && answer == Done && me.alive
    {
      hide Run, AllForeign, Step, Cluster, Ahead, Begun, Answered, Kept, PatchStatus, GetPhaseFromCondition, AfterPatch;
      var reply := Call();
      if reply.None? {
        return false;
      }
      var phase := if ignored then Ignored else GetPhaseFromCondition(w.obj.conditions, w.obj.spec.restore);
      if reply.value != Done || !me.alive {
        RefusedStep(uid, me, w, server, reply.value);
        Commit(reply.value, me, server, [], w.(pc := Idle));
        return false;
      }
      var obj := w.obj.(phase := Some(phase));
      var patched := Patched(me, obj);
      PatchedStep(uid, me, patched, w, server, phase, obj);
      var last := if w.pc == FinalPatch then [Concluded(uid, obj.spec.restore, w.sawJob, phase, obj.conditions)] else [];
      Commit(reply.value, patched, server, last, w.(pc := AfterPatch(w.pc, obj), obj := obj));
      return true;
    }

    /** What the conditions say of both servers after a look at them. */
    static ghost predicate TellsBoth(before: seq<Condition>, after: seq<Condition>, mongo: bool, vault: bool) {
      exists cs :: Tells(before, cs, DATABASE_READY, mongo) && Tells(cs, after, VAULT_READY, vault)
    }

    /** The database first; the vault is looked at only if that was found. */
    static method NoteServers(obj: Version, seen: Reply) returns (ready: bool, r: Version)
      requires seen.Servers?
      ensures ready <==> seen.mongoFound && seen.vaultFound && seen.ready
      ensures ready ==> r == obj.(conditions :=
                               Observe(Observe(obj.conditions, DATABASE_READY, true, seen.mongoHealthy, seen.error),
                                       VAULT_READY, true, seen.vaultHealthy, seen.error))
      ensures ready ==> TellsBoth(obj.conditions, r.conditions, seen.mongoHealthy, seen.vaultHealthy)
    {
      hide Observe, Tells;
      r := StatusFor(obj, DATABASE_READY, seen.mongoFound, seen.mongoHealthy, seen.error);
      if !seen.mongoFound {
        return false, r;
      }
      ghost var between := r.conditions;
      r := StatusFor(r, VAULT_READY, seen.vaultFound, seen.vaultHealthy, seen.error);
      ready := seen.vaultFound && seen.ready;
      assert Tells(obj.conditions, between, DATABASE_READY, seen.mongoHealthy);
    }

    /** Fetch both servers and note what they look like; only with both found and ready the run
        goes on, and keeps what it noted. */
    method CheckServers() returns (ready: bool)
      requires Valid() && w.pc == Gating(Gate)
      modifies this
      ensures Valid() && Continues(old(trace), old(Ahead())) && Used(old(script))
      ensures w.pc == if ready then Gating(GatePatch) else Idle
      ensures ready <==> !dead && answer.Servers? && answer.mongoFound && answer.vaultFound && answer.ready
      ensures ready ==> TellsBoth(old(w).obj.conditions, w.obj.conditions, answer.mongoHealthy, answer.vaultHealthy)
    {
      hide Run, AllForeign, Step, Observe, Cluster, Ahead, Begun, Answered, TellsBoth, Kept;
      var reply := Call();
      if reply.None? {
        return false;
      }
      GateAnswer(uid, me, w, server, reply.value);
      ready := false;
      var obj := w.obj;
      if reply.value.Servers? {
        ready, obj := NoteServers(w.obj, reply.value);
      }
      if !ready {
        // the conditions noted so far are dropped with the copy
        Commit(reply.value, me, server, [], w.(pc := Idle));
        return false;
      }
      Commit(reply.value, me, server, [], w.(pc := Gating(GatePatch), obj := obj));
    }

    method GetMongoDBAndVaultServer() returns (goForward: bool)
      requires Valid()
      requires w.pc == if w.obj.phase.None? then Gating(Announce) else Gating(Gate)
      modifies this
      ensures Valid() && Continues(old(trace), old(Ahead()))
      ensures w.pc == if goForward then Route(w.obj) else Idle
      ensures goForward ==> Last(me.hist).conditions == w.obj.conditions && Last(me.hist).phase == Some(PhaseOf(w.obj))
    {
      hide Run, AllForeign, Cluster, Ahead;
      if w.obj.phase.None? {
        var announced := UpdateSchemaMongoDBDatabaseStatus(false);
        if !announced {
          return false;
        }
      }
      goForward := CheckServers();
      if goForward {
        goForward := UpdateSchemaMongoDBDatabaseStatus(false);
      }
    }

    /* ---------- finalizer and ownership entry ---------- */

    method ListCollections() returns (ok: bool, empty: bool)
      requires Valid() && w.pc == Registering(SchemaProtocol.ListCollections)
      modifies this
      ensures Valid() && Continues(old(trace), old(Ahead())) && Used(old(script))
      ensures w == old(w).(pc := w.pc)
      ensures w.pc == if !ok then Idle else Registering(if empty then SchemaProtocol.UpsertEntry else IgnoredPatch)
      ensures ok ==> (empty <==> me.name in server.databases ==> server.databases[me.name] == {})
      ensures ok ==> log != [] && Last(log) == Listed(uid, me.name, empty)
      ensures ok <==> !dead && answer == Done
    {
      hide Run, AllForeign, Cluster, Ahead, Begun, Answered;
      var reply := Call();
      if reply.None? {
        return false, false;
      }
      if reply.value != Done {
        Commit(reply.value, me, server, [], w.(pc := Idle));
        return false, false;
      }
      empty := me.name !in server.databases || server.databases[me.name] == {};
      Commit(reply.value, me, server, [Listed(uid, me.name, empty)],
             w.(pc := Registering(if empty then SchemaProtocol.UpsertEntry else IgnoredPatch)));
      return true, empty;
    }

    /** Update or insert the entry {UID: name}. */
    method UpsertEntry() returns (ok: bool)
      requires Valid() && w.pc == Registering(SchemaProtocol.UpsertEntry)
      modifies this
      ensures Valid() && Continues(old(trace), old(Ahead())) && Used(old(script))
      ensures w == old(w).(pc := if ok then Registering(AddFinalizer) else Idle)
      ensures ok ==> Entry(uid, me.name) in server.entries
      ensures ok <==> !dead && answer == Done
    {
      hide Run, AllForeign, Cluster, Ahead, Begun, Answered;
      var reply := Call();
      if reply.None? {
        return false;
      }
      if reply.value != Done {
        Commit(reply.value, me, server, [], w.(pc := Idle));
        return false;
      }
      Commit(reply.value, me, server.(entries := server.entries + {Entry(uid, me.name)}),
             [Registered(uid, me.name)], w.(pc := Registering(AddFinalizer)));
      return true;
    }

    method EnsureEntryIntoDatabase() returns (ok: bool)
      requires Valid() && w.pc == Registering(SchemaProtocol.ListCollections)
      modifies this
      ensures Valid() && Continues(old(trace), old(Ahead()))
      ensures w.pc == if ok then Registering(AddFinalizer) else Idle
      ensures ok ==> w.obj == old(w).obj && Entry(uid, me.name) in server.entries
    {
      hide Run, AllForeign, Cluster, Ahead;
      var listed, empty := ListCollections();
      if !listed {
        return false;
      }
      if !empty {
        var ignored := UpdateSchemaMongoDBDatabaseStatus(true);
        return false;
      }
      ok := UpsertEntry();
    }

    /** FindOne: any error at all counts as "no entry". */
    method FindEntry() returns (called: bool, found: bool)
      requires Valid() && w.pc == Deleting(SchemaProtocol.FindEntry)
      modifies this
      ensures Valid() && Continues(old(trace), old(Ahead())) && Used(old(script))
      ensures w.pc == if !called then Idle else Deleting(if found then SchemaProtocol.DropDatabase else RemoveFinalizer)
      ensures called ==> (found <==> answer != FindError && Entry(uid, me.name) in server.entries)
      ensures called <==> !dead && (answer == Done || answer == FindError)
    {
      hide Run, AllForeign, Cluster, Ahead, Begun, Answered;
      var reply := Call();
      if reply.None? {
        return false, false;
      }
      var there := Entry(uid, me.name) in server.entries;
      if reply.value == FindError {
        Commit(reply.value, me, server, [FindFailed(uid, there)], w.(pc := Deleting(RemoveFinalizer)));
        return true, false;
      }
      if reply.value != Done {
        Commit(reply.value, me, server, [], w.(pc := Idle));
        return false, false;
      }
      Commit(reply.value, me, server, [], w.(pc := Deleting(if there then SchemaProtocol.DropDatabase else RemoveFinalizer)));
      return true, there;
    }

    method DropDatabase() returns (ok: bool)
      requires Valid() && w.pc == Deleting(SchemaProtocol.DropDatabase)
      modifies this
      ensures Valid() && Continues(old(trace), old(Ahead())) && Used(old(script))
      ensures w.pc == if ok then Deleting(SchemaProtocol.DeleteEntry) else Idle
      ensures ok ==> me.name !in server.databases && log != [] && Last(log) == Dropped(uid, me.name)
      ensures ok <==> !dead && answer == Done
    {
      hide Run, AllForeign, Cluster, Ahead, Begun, Answered;
      var reply := Call();
      if reply.None? {
        return false;
      }
      if reply.value != Done {
        Commit(reply.value, me, server, [], w.(pc := Idle));
        return false;
      }
      Commit(reply.value, me, DropIn(server, me.name), [Dropped(uid, me.name)], w.(pc := Deleting(SchemaProtocol.DeleteEntry)));
      return true;
    }

    method DeleteEntry() returns (ok: bool)
      requires Valid() && w.pc == Deleting(SchemaProtocol.DeleteEntry)
      modifies this
      ensures Valid() && Continues(old(trace), old(Ahead())) && Used(old(script))
      ensures w.pc == if ok then Deleting(RemoveFinalizer) else Idle
      ensures ok ==> Entry(uid, me.name) !in server.entries && log != [] && Last(log) == EntryDeleted(uid, me.name)
      ensures ok <==> !dead && answer == Done
    {
      hide Run, AllForeign, Cluster, Ahead, Begun, Answered;
      var reply := Call();
      if reply.None? {
        return false;
      }
      if reply.value != Done {
        Commit(reply.value, me, server, [], w.(pc := Idle));
        return false;
      }
      Commit(reply.value, me, server.(entries := server.entries - {Entry(uid, me.name)}),
             [EntryDeleted(uid, me.name)], w.(pc := Deleting(RemoveFinalizer)));
      return true;
    }

    method DoExternalThingsBeforeDelete() returns (ok: bool)
      requires Valid() && w.pc == Deleting(SchemaProtocol.FindEntry)
      modifies this
      ensures Valid() && Continues(old(trace), old(Ahead()))
      ensures w.pc == if ok then Deleting(RemoveFinalizer) else Idle
      ensures ok ==> Entry(uid, me.name) !in server.entries || answer == FindError
    {
      hide Run, AllForeign, Cluster, Ahead;
      var found;
      ok, found := FindEntry();
      if ok && found {
        ok := DropDatabase();
        if ok {
          ok := DeleteEntry();
        }
      }
    }

    /** Update with our finalizer added; accepted only on the version that was read. */
    method UpdateAddingFinalizer() returns (ok: bool)
      requires Valid() && w.pc == Registering(AddFinalizer)
      modifies this
      ensures Valid() && Continues(old(trace), old(Ahead())) && Used(old(script))
      ensures w.pc == if ok then Chaining(EnsureEngine) else Idle
      ensures ok ==> me.alive && w.obj.finalizer && w.obj == Last(me.hist)
      ensures ok ==> |me.hist| == old(w).base + 2 && w.base == old(w).base + 1
      ensures !ok ==> dead || answer != Done || !me.alive || old(w).base + 1 != |me.hist|
    {
      hide Run, AllForeign, Cluster, Ahead, Begun, Answered;
      var reply := Call();
      if reply.None? {
        return false;
      }
      if reply.value != Done || !me.alive || w.base + 1 != |me.hist| {
        Commit(reply.value, me, server, [], w.(pc := Idle));
        return false;
      }
      var obj := Last(me.hist).(finalizer := true);
      Commit(reply.value, me.(hist := me.hist + [obj]), server, [],
             w.(pc := Chaining(EnsureEngine), obj := obj, base := |me.hist|));
      return true;
    }

    method UpdateRemovingFinalizer() returns (ok: bool)
      requires Valid() && w.pc == Deleting(RemoveFinalizer)
      modifies this
      ensures Valid() && Continues(old(trace), old(Ahead())) && Used(old(script))
      ensures w.pc == Idle
      ensures ok ==> |me.hist| == old(w).base + 2 && !Last(me.hist).finalizer && me.alive == me.otherFinalizers
      ensures ok ==> log != [] && Last(log) == Released(uid, Entry(uid, me.name) in server.entries)
      ensures !ok ==> dead || answer != Done || !me.alive || old(w).base + 1 != |me.hist|
    {
      hide Run, AllForeign, Cluster, Ahead, Begun, Answered;
      var reply := Call();
      if reply.None? {
        return false;
      }
      if reply.value != Done || !me.alive || w.base + 1 != |me.hist| {
        Commit(reply.value, me, server, [], w.(pc := Idle));
        return false;
      }
      var obj := Last(me.hist).(finalizer := false);
      Commit(reply.value, me.(hist := me.hist + [obj], alive := me.otherFinalizers), server,
             [Released(uid, Entry(uid, me.name) in server.entries)], w.(pc := Idle));
      return true;
    }

    method EnsureOrDeleteFinalizer() returns (goForward: bool)
      requires Valid() && w.pc == Route(w.obj)
      modifies this
      ensures Valid() && Continues(old(trace), old(Ahead()))
      ensures w.pc == if goForward then Chaining(EnsureEngine) else Idle
      ensures goForward ==> if old(w).obj.deleting then old(w).obj.spec.policy != PolicyDelete else w.obj.finalizer
      ensures old(w).obj.deleting ==> (goForward <==> old(w).obj.spec.policy != PolicyDelete)
      ensures !old(w).obj.deleting && old(w).obj.finalizer ==> goForward && script == old(script)
    {
      hide Run, AllForeign, Cluster, Ahead;
      if !w.obj.deleting {
        if !w.obj.finalizer {
          var entered := EnsureEntryIntoDatabase();
          if !entered {
            return false;
          }
          goForward := UpdateAddingFinalizer();
          return;
        }
      } else if w.obj.spec.policy == PolicyDelete {
        if w.obj.finalizer {
          var done := DoExternalThingsBeforeDelete();
          if !done {
            return false;
          }
          var removed := UpdateRemovingFinalizer();
        }
        return false;
      }
      return true;
    }

    /* ---------- the chain of children ---------- */

    /** The call failed: the run goes to its last patch. */
    method Fail(reply: Reply)
      requires Valid()
      requires Step(uid, me.(worker := w), server, reply) == Only(At(me.(worker := w), FinalPatch), server)
      modifies this
      ensures Valid() && Continues(old(trace), old(Answered(reply)))
      ensures w == old(w).(pc := FinalPatch) && dead == old(dead) && me == old(me) && answer == old(answer) && script == old(script)
    {
      hide Run, AllForeign, Step, Cluster, Ahead, Begun, Answered;
      Commit(reply, me, server, [], w.(pc := FinalPatch));
    }

    /** CreateOrPatch of the secret engine, and reading it back. */
    method EnsureSecretEngine() returns (ok: bool)
      requires Valid() && w.pc == Chaining(EnsureEngine)
      modifies this
      ensures Valid() && Continues(old(trace), old(Ahead())) && Used(old(script))
      ensures w.pc == if ok then Chaining(EnsureRole) else Stopped(dead)
      ensures ok ==> answer.Ensured? && me.children == old(me).children + {SecretEngine} && w.engineSucceeded == answer.succeeded
      ensures ok ==> Tells(old(w).obj.conditions, w.obj.conditions, SECRET_ENGINE_READY, answer.found && answer.healthy)
      ensures ok <==> !dead && answer.Ensured?
      ensures w.obj == old(w).obj.(conditions := w.obj.conditions)
    {
      hide Run, AllForeign, Step, Observe, Cluster, Ahead, Begun, Answered, Tells;
      var reply := Call();
      if reply.None? {
        return false;
      }
      EngineAnswer(uid, me.(worker := w), server, reply.value);
      if !reply.value.Ensured? {
        Fail(reply.value);
        return false;
      }
      var obj := StatusFor(w.obj, SECRET_ENGINE_READY, reply.value.found, reply.value.healthy, reply.value.error);
      Commit(reply.value, me.(children := me.children + {SecretEngine}), server, [],
             w.(pc := Chaining(EnsureRole), obj := obj, engineSucceeded := reply.value.succeeded));
      return true;
    }

    method EnsureMongoDBRole() returns (ok: bool)
      requires Valid() && w.pc == Chaining(EnsureRole)
      modifies this
      ensures Valid() && Continues(old(trace), old(Ahead())) && Used(old(script))
      ensures w.pc == if ok then Chaining(EnsureAccount) else Stopped(dead)
      ensures ok <==> !dead && answer.Ensured? && answer.succeeded && old(w).engineSucceeded
      ensures !dead && answer.Ensured? ==>
                && me.children == old(me).children + {Role}
                && Tells(old(w).obj.conditions, w.obj.conditions, ROLE_READY, answer.found && answer.healthy)
      ensures w.obj == old(w).obj.(conditions := w.obj.conditions)
    {
      hide Run, AllForeign, Step, Observe, Cluster, Ahead, Begun, Answered, Tells;
      var reply := Call();
      if reply.None? {
        return false;
      }
      RoleAnswer(uid, me.(worker := w), server, reply.value);
      if !reply.value.Ensured? {
        Fail(reply.value);
        return false;
      }
      var obj := StatusFor(w.obj, ROLE_READY, reply.value.found, reply.value.healthy, reply.value.error);
      ok := w.engineSucceeded && reply.value.succeeded;
      Commit(reply.value, me.(children := me.children + {Role}), server, [],
             w.(pc := if ok then Chaining(EnsureAccount) else FinalPatch, obj := obj));
    }

    method EnsureServiceAccount() returns (ok: bool)
      requires Valid() && w.pc == Chaining(EnsureAccount)
      modifies this
      ensures Valid() && Continues(old(trace), old(Ahead())) && Used(old(script))
      ensures w.pc == if ok then Chaining(EnsureRequest) else Stopped(dead)
      ensures me.children == if ok then old(me).children + {ServiceAccount} else old(me).children
      ensures ok <==> !dead && answer == Done
      ensures w.obj == old(w).obj
    {
      hide Run, AllForeign, Cluster, Ahead, Begun, Answered;
      var reply := Call();
      if reply.None? {
        return false;
      }
      if reply.value != Done {
        Fail(reply.value);
        return false;
      }
      Commit(reply.value, me.(children := me.children + {ServiceAccount}), server, [], w.(pc := Chaining(EnsureRequest)));
      return true;
    }

    /** The transform of the access request: scan the subjects, append only when not found. */
    static method UpsertSubject(subjects: seq<string>, account: string) returns (r: seq<string>)
      ensures r == WithSubject(subjects, account)
      ensures multiset(subjects)[account] <= 1 ==> multiset(r)[account] == 1
      ensures subjects <= r && account in r
    {
      var found := false;
      for i := 0 to |subjects|
        invariant found <==> account in subjects[..i]
      {
        if subjects[i] == account {
          found := true;
        }
      }
      assert subjects[..|subjects|] == subjects;
      if found {
        assert account in multiset(subjects);
        return subjects;
      }
      r := subjects + [account];
      assert account !in multiset(subjects);
    }

    method EnsureSecretAccessRequest() returns (approved: bool)
      requires Valid() && w.pc == Chaining(EnsureRequest)
      modifies this
      ensures Valid() && Continues(old(trace), old(Ahead()))
      ensures w.pc == if approved then Chaining(GetCredential) else Stopped(dead)
      ensures approved ==> me.children == old(me).children + {AccessRequest} && me.account in me.subjects
      ensures approved ==>
                && answer.Ensured? && answer.succeeded
                && Tells(old(w).obj.conditions, w.obj.conditions, ACCESS_REQUEST_READY, answer.found && answer.healthy)
      ensures approved <==> !dead && answer.Ensured? && answer.succeeded
      ensures w.obj == old(w).obj.(conditions := w.obj.conditions)
      ensures Approving(old(script), old(w).obj.spec.autoApproval) ==>
                approved && script == old(script)[if w.obj.spec.autoApproval then 2 else 1..]
    {
      hide Run, AllForeign, Step, Observe, Cluster, Ahead, Begun, Answered, Tells;
      var made;
      made, approved := PutAccessRequest();
      if !made {
        return false;
      }
      if w.obj.spec.autoApproval {
        approved := AutoApprove();
      }
    }

    /** CreateOrPatch of the request with the account among its subjects. Without auto-approval its
        approval is read and recorded at once. */
    method PutAccessRequest() returns (made: bool, approved: bool)
      requires Valid() && w.pc == Chaining(EnsureRequest)
      modifies this
      ensures Valid() && Continues(old(trace), old(Ahead())) && Used(old(script))
      ensures w.pc == if !made then Stopped(dead) else if w.obj.spec.autoApproval then Chaining(Approve)
                      else if approved then Chaining(GetCredential) else FinalPatch
      ensures made <==> !dead && answer.Ensured?
      ensures made ==> !dead && me.children == old(me).children + {AccessRequest} && me.account in me.subjects
      ensures made ==> answer.Ensured? && approved == answer.succeeded
      ensures made ==> if w.obj.spec.autoApproval then w.obj == old(w).obj
                       else Tells(old(w).obj.conditions, w.obj.conditions, ACCESS_REQUEST_READY, answer.found && answer.healthy)
      ensures w.obj == old(w).obj.(conditions := w.obj.conditions)
    {
      hide Run, AllForeign, Step, Observe, WithSubject, Cluster, Ahead, Begun, Answered, Tells;
      var reply := Call();
      if reply.None? {
        return false, false;
      }
      RequestAnswer(uid, me.(worker := w), server, reply.value);
      if !reply.value.Ensured? {
        Fail(reply.value);
        return false, false;
      }
      var subjects := UpsertSubject(me.subjects, me.account);
      var r := me.(children := me.children + {AccessRequest}, subjects := subjects);
      approved := reply.value.succeeded;
      if w.obj.spec.autoApproval {
        Commit(reply.value, r, server, [], w.(pc := Chaining(Approve)));
        return true, approved;
      }
      var obj := StatusFor(w.obj, ACCESS_REQUEST_READY, reply.value.found, reply.value.healthy, reply.value.error);
      Commit(reply.value, r, server, [], w.(pc := AfterApproval(approved), obj := obj));
      made := true;
    }

    /** The approval is patched in, and decided by a fresh read of the request. */
    method AutoApprove() returns (approved: bool)
      requires Valid() && w.pc == Chaining(Approve)
      modifies this
      ensures Valid() && Continues(old(trace), old(Ahead())) && Used(old(script))
      ensures w.pc == if approved then Chaining(GetCredential) else Stopped(dead)
      ensures Kept(old(me), me)
      ensures approved ==>
                && answer.Ensured? && answer.succeeded
                && Tells(old(w).obj.conditions, w.obj.conditions, ACCESS_REQUEST_READY, answer.found && answer.healthy)
      ensures approved <==> !dead && answer.Ensured? && answer.succeeded
      ensures w.obj == old(w).obj.(conditions := w.obj.conditions)
    {
      hide Run, AllForeign, Step, Observe, Cluster, Ahead, Begun, Answered, Tells;
      var reply := Call();
      if reply.None? {
        return false;
      }
      ApproveAnswer(uid, me.(worker := w), server, reply.value);
      if !reply.value.Ensured? {
        Fail(reply.value);
        return false;
      }
      var obj := StatusFor(w.obj, ACCESS_REQUEST_READY, reply.value.found, reply.value.healthy, reply.value.error);
      approved := reply.value.succeeded;
      Commit(reply.value, me, server, [], w.(pc := AfterApproval(approved), obj := obj));
    }

    method GetSingleCredential() returns (ok: bool)
      requires Valid() && w.pc == Chaining(GetCredential)
      modifies this
      ensures Valid() && Continues(old(trace), old(Ahead())) && Used(old(script))
      ensures (ok <==> !dead && answer == Done) && Kept(old(me), me)
      ensures w == old(w).(pc := if !ok then Stopped(dead)
                                 else if w.obj.spec.restore then Restoring(CopyRepository) else Initializing(ReadJob))
    {
      hide Run, AllForeign, Cluster, Ahead, Begun, Answered;
      var reply := Call();
      if reply.None? {
        return false;
      }
      if reply.value != Done {
        Fail(reply.value);
        return false;
      }
      Commit(reply.value, me, server, [],
             w.(pc := if w.obj.spec.restore then Restoring(CopyRepository) else Initializing(ReadJob)));
      return true;
    }

    /* ---------- restore ---------- */

    method CopyRepositoryAndSecret() returns (ok: bool)
      requires Valid() && w.pc == Restoring(CopyRepository)
      modifies this
      ensures Valid() && Continues(old(trace), old(Ahead()))
      ensures w.pc == if ok then Restoring(CopyAuthSecret) else Stopped(dead)
      ensures RepositorySecret in me.children - old(me).children ==> Repository in me.children
      ensures if ok then me.children == old(me).children + {Repository, RepositorySecret} && answer.Ensured?
                         && Tells(old(w).obj.conditions, w.obj.conditions, REPOSITORY_FOUND, answer.found)
              else me.children <= old(me).children + {Repository} && w.obj == old(w).obj
      ensures !ok && !dead ==> if me.children == old(me).children then answer != Done || Repository in me.children else !answer.Ensured?
    {
      hide Run, AllForeign, Cluster, Ahead, Begun, Answered, Tells;
      var reply := Call();
      if reply.None? {
        return false;
      }
      if reply.value != Done {
        Fail(reply.value);
        return false;
      }
      Commit(reply.value, me.(children := me.children + {Repository}), server, [], w.(pc := Restoring(CopyRepositorySecret)));
      ok := EnsureFoundChild(RepositorySecret, REPOSITORY_FOUND);
    }

    /** A copy whose mere presence is recorded as a condition. */
    method EnsureFoundChild(child: Child, kind: Kind) returns (ok: bool)
      requires Valid()
      requires (w.pc == Restoring(CopyRepositorySecret) && child == RepositorySecret && kind == REPOSITORY_FOUND)
            || (w.pc == Restoring(SchemaProtocol.EnsureAppBinding) && child == AppBinding && kind == APPBINDING_FOUND)
      modifies this
      ensures Valid() && Continues(old(trace), old(Ahead())) && Used(old(script))
      ensures w.pc == if !ok then Stopped(dead) else Restoring(if child == RepositorySecret then CopyAuthSecret else EnsureRestore)
      ensures if ok then me.children == old(me).children + {child} && answer.Ensured?
                         && Tells(old(w).obj.conditions, w.obj.conditions, kind, answer.found)
              else me.children == old(me).children && w.obj == old(w).obj
      ensures ok <==> !dead && answer.Ensured?
    {
      hide Run, AllForeign, Step, Observe, Cluster, Ahead, Begun, Answered, Tells;
      var reply := Call();
      if reply.None? {
        return false;
      }
      FoundAnswer(uid, me.(worker := w), server, reply.value, child, kind);
      if !reply.value.Ensured? {
        Fail(reply.value);
        return false;
      }
      var obj := StatusFor(w.obj, kind, reply.value.found, true, reply.value.error);
      Commit(reply.value, me.(children := me.children + {child}), server, [],
             w.(pc := Restoring(if child == RepositorySecret then CopyAuthSecret else EnsureRestore), obj := obj));
      return true;
    }

    /** The auth secret is copied first; an error of that CreateOrPatch is never looked at. */
    method EnsureAppBinding() returns (ok: bool)
      requires Valid() && w.pc == Restoring(CopyAuthSecret)
      modifies this
      ensures Valid() && Continues(old(trace), old(Ahead()))
      ensures w.pc == if ok then Restoring(EnsureRestore) else Stopped(dead)
      ensures if ok then old(me).children + {AppBinding} <= me.children <= old(me).children + {AuthSecret, AppBinding} && answer.Ensured?
                         && Tells(old(w).obj.conditions, w.obj.conditions, APPBINDING_FOUND, answer.found)
              else me.children <= old(me).children + {AuthSecret} && w.obj == old(w).obj
      ensures ok <==> !dead && answer.Ensured?
    {
      hide Run, AllForeign, Cluster, Ahead, Begun, Answered, Tells, Noted, Recorded;
      var reply := Call();
      if reply.None? {
        return false;
      }
      if reply.value != Done && !reply.value.Ensured? {
        Fail(reply.value);
        return false;
      }
      var children := if reply.value == Done then me.children + {AuthSecret} else me.children;
      Commit(reply.value, me.(children := children), server, [], w.(pc := Restoring(SchemaProtocol.EnsureAppBinding)));
      ok := EnsureFoundChild(AppBinding, APPBINDING_FOUND);
    }

    method EnsureRestoreSession()
      requires Valid() && w.pc == Restoring(EnsureRestore)
      modifies this
      ensures Valid() && Continues(old(trace), old(Ahead())) && Used(old(script))
      ensures w.pc == Stopped(dead)
      ensures if !dead && answer.Restored?
              then me.children == old(me).children + {RestoreSession}
                   && Tells(old(w).obj.conditions, w.obj.conditions, SchemaStatus.RESTORE_SESSION,
                            answer.found && answer.outcome != RestoreIsRunning)
              else me.children == old(me).children && w.obj == old(w).obj
    {
      hide Run, AllForeign, Step, ObserveRestore, Cluster, Ahead, Begun, Answered, Tells;
      var reply := Call();
      if reply.None? {
        return;
      }
      RestoreAnswer(uid, me.(worker := w), server, reply.value);
      if !reply.value.Restored? {
        Fail(reply.value);
        return;
      }
      var obj := StatusForRestoreSession(w.obj, reply.value.found, reply.value.outcome, reply.value.error);
      Commit(reply.value, me.(children := me.children + {RestoreSession}), server, [], w.(pc := FinalPatch, obj := obj));
    }

    /* ---------- init job ---------- */

    /** Look at the job; a missing spec.init is dereferenced and ends the process. */
    method ReadInitJob() returns (initialized: bool)
      requires Valid() && w.pc == Initializing(ReadJob)
      modifies this
      ensures Valid() && Continues(old(trace), old(Ahead()))
      ensures w.pc == if initialized then Stopped(dead) else Initializing(MakeJob)
      ensures me.children == old(me).children && w.obj == old(w).obj.(conditions := w.obj.conditions)
      ensures !dead ==> (w.sawJob <==> answer.Ensured? || old(w).sawJob)
      ensures !dead && answer.Ensured? ==>
                && w.obj.spec.init.Some? && (initialized <==> w.obj.spec.init.value.initialized)
                && Tells(old(w).obj.conditions, w.obj.conditions, JOB_COMPLETED, answer.found && answer.healthy)
      ensures !initialized ==> !dead && answer.Ensured?
      ensures !dead && !answer.Ensured? ==> initialized
    {
      hide Run, AllForeign, Step, Observe, Cluster, Ahead, Begun, Answered, Tells;
      var reply := Call();
      if reply.None? {
        return true;
      }
      ReadJobAnswer(uid, me.(worker := w), server, reply.value);
      if !reply.value.Ensured? {
        Fail(reply.value);
        return true;
      }
      if w.obj.spec.init.None? {
        Commit(reply.value, me, server, [], w.(pc := Idle));
        Panic();
        return true;
      }
      var obj := StatusFor(w.obj, JOB_COMPLETED, reply.value.found, reply.value.healthy, reply.value.error);
      initialized := obj.spec.init.value.initialized;
      Commit(reply.value, me, server, [],
             w.(pc := if initialized then FinalPatch else Initializing(MakeJob), obj := obj, sawJob := true));
    }

    method MakeTheInitJob()
      requires Valid() && w.pc == Initializing(MakeJob) && w.obj.spec.init.Some?
      modifies this
      ensures Valid() && Continues(old(trace), old(Ahead())) && Used(old(script))
      ensures w.pc == Stopped(dead)
      ensures if !dead && answer.Ensured? && w.obj.spec.init.Some? && w.obj.spec.init.value.hasScript
              then me.children == old(me).children + {Job} && log != [] && Last(log) == JobMade(uid, w.obj.spec.restore)
                   && Tells(old(w).obj.conditions, w.obj.conditions, JOB_COMPLETED, answer.found && answer.healthy)
              else me.children == old(me).children && w.obj == old(w).obj
    {
      hide Run, AllForeign, Step, Observe, Cluster, Ahead, Begun, Answered, Tells;
      var reply := Call();
      if reply.None? {
        return;
      }
      MakeJobAnswer(uid, me.(worker := w), server, reply.value);
      if !reply.value.Ensured? || !w.obj.spec.init.value.hasScript {
        Fail(reply.value);
        return;
      }
      var obj := StatusFor(w.obj, JOB_COMPLETED, reply.value.found, reply.value.healthy, reply.value.error);
      Commit(reply.value, me.(children := me.children + {Job}), server, [JobMade(uid, obj.spec.restore)],
             w.(pc := FinalPatch, obj := obj));
    }

    /* ---------- the worker ---------- */

    /** The children every run needs, up to reading the credential. */
    method EnsureAccess() returns (ok: bool)
      requires Valid() && w.pc == Chaining(EnsureEngine)
      modifies this
      ensures Valid() && Continues(old(trace), old(Ahead()))
      ensures w.pc == if !ok then Stopped(dead)
                      else if w.obj.spec.restore then Restoring(CopyRepository) else Initializing(ReadJob)
      ensures ok ==> {SecretEngine, Role, ServiceAccount, AccessRequest} <= me.children && me.account in me.subjects
      ensures Granting(old(script), old(w).obj.spec.autoApproval) ==> ok
    {
      hide Run, AllForeign, Cluster, Ahead, Tells;
      ok := EnsureSecretEngine();
      if !ok {
        return;
      }
      ok := EnsureMongoDBRole();
      if !ok {
        return;
      }
      ok := EnsureServiceAccount();
      if !ok {
        return;
      }
      ok := EnsureSecretAccessRequest();
      if ok {
        ok := GetSingleCredential();
      }
    }

    method RunMongoSchema()
      requires Valid() && w.pc == Chaining(EnsureEngine)
      modifies this
      ensures Valid() && Continues(old(trace), old(Ahead()))
      ensures w.pc == Stopped(dead)
    {
      hide Run, AllForeign, Cluster, Ahead, Tells;
      var ok := EnsureAccess();
      if !ok {
        return;
      }
      if w.obj.spec.restore {
        ok := CopyRepositoryAndSecret();
        if ok {
          ok := EnsureAppBinding();
          if ok {
            EnsureRestoreSession();
          }
        }
        return;
      }
      var initialized := ReadInitJob();
      if !initialized {
        MakeTheInitJob();
      }
    }

    /** One reconcile, from the first read to the last status patch. However it ends, the cluster
        is the one the step system comes to on the same script, so every promise about its runs
        holds of this code. */
    method Reconcile()
      requires Valid() && w.pc == Idle
      modifies this
      ensures Valid() && w.pc == Idle
      ensures old(trace) <= trace && Cluster() == Attempted(uid, old(Cluster()), old(script))
      ensures Inv(origin) ==> Inv(Cluster())
    {
      hide Run, AllForeign, Cluster, Inv, Attempted;
      Attempt();
      if Inv(origin) {
        RunFromKeepsInv(origin, trace);
      }
    }

    method Attempt()
      requires Valid() && w.pc == Idle
      modifies this
      ensures Valid() && w.pc == Idle
      ensures old(trace) <= trace && Cluster() == Attempted(uid, old(Cluster()), old(script))
    {
      hide Run, AllForeign, Attempted, Tells;
      Follow();
    }

    method Follow()
      requires Valid() && w.pc == Idle
      modifies this
      ensures Valid() && w.pc == Idle && Continues(old(trace), old(Begun()))
    {
      hide Run, AllForeign, Cluster, Ahead, Begun;
      var found := Get();
      if !found {
        return;
      }
      var goForward := GetMongoDBAndVaultServer();
      if !goForward {
        return;
      }
      goForward := EnsureOrDeleteFinalizer();
      if !goForward {
        return;
      }
      RunMongoSchema();
      if !dead {
        var patched := UpdateSchemaMongoDBDatabaseStatus(false);
      }
    }
  }
}
