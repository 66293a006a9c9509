/** The worker as it is written: runMongoDB with create, halt and the StatefulSet loop, as methods
    that return early and write through the API. `Attempted` is what the step system of the Operator
    module comes to on a script of outside events and replies; each method promises that the attempt
    still ends there, and what is stored when it succeeds, so the promises proved for all runs of the
    step system hold of this code. */
module OperatorWorker {
  import opened Common
  import opened Conditions
  import opened Operator
  import opened OperatorOrder

  /** What others do before a call, and how the call then goes. */
  datatype Tick = Tick(before: seq<Event>, reply: Reply)

  predicate Foreign(e: Event) {
    !e.Act? && !e.Crash?
  }

  predicate AllForeign(script: seq<Tick>) {
    forall t <- script :: forall e <- t.before :: Foreign(e)
  }

  lemma HeadIsForeign(script: seq<Tick>)
    requires AllForeign(script) && script != []
    ensures (forall e <- script[0].before :: Foreign(e)) && AllForeign(script[1..])
  {
  }

  /** Others append versions and take StatefulSets away; they do not touch the worker or the log. */
  predicate Kept(s: State, t: State) {
    t.worker == s.worker && t.sharded == s.sharded && t.log == s.log && s.hist <= t.hist && t.nodes <= s.nodes
  }

  lemma ForeignStep(s: State, e: Event)
    requires s.hist != [] && Foreign(e)
    ensures Kept(s, Apply(s, e))
  {
    hide SetCondition, RemoveCondition, BothFalse;
  }

  lemma {:induction false} ForeignRun(s: State, events: seq<Event>)
    requires s.hist != [] && forall e <- events :: Foreign(e)
    ensures Run(s, events).hist != [] && Kept(s, Run(s, events))
  {
    hide Apply;
    if events != [] {
      ForeignRun(s, Front(events));
      ForeignStep(Run(s, Front(events)), Last(events));
    }
  }

  lemma DecideIsStep(s: State, reply: Reply)
    requires s.hist != [] && s.worker.pc == Top(Decide)
    ensures Step(s, reply) == if reply.PhaseIs? then DecideStep(s, reply.phase) else At(s, Idle)
  {
  }

  /* ---------- what an attempt has to come to ---------- */

  /** What the worker knows of its copy makes it write the status before anything else. */
  predicate WritesFirst(phaseOf: seq<Condition> -> Phase, v: Version) {
    || v.phase != phaseOf(v.conditions)
    || v.conditions == []
    || (!IsConditionTrue(v.conditions, PAUSED) && !v.spec.halted && HasCondition(v.conditions, HALTED))
  }

  /** Whether the worker's next step calls the API at all. */
  predicate Calls(phaseOf: seq<Condition> -> Phase, w: Worker) {
    match w.pc
    case Top(Finalize) => !w.obj.finalizer
    case Top(Decide) => WritesFirst(phaseOf, w.obj)
    case Setup(Auth) => !w.obj.spec.authSecret
    case Setup(KeyFile) => w.obj.spec.keyFileRequired
    case Nodes(Gate) => false
    case After(WriteProvisioned) => ShowsReady(w.obj) && !IsProvisioned(w.obj)
    case After(Initialize) => w.obj.spec.hasInit && !w.obj.spec.initialized && IsProvisioned(w.obj)
    case _ => true
  }

  /** The step system's reply where the call had this one: the phase is the worker's own doing. */
  function Taken(phaseOf: seq<Condition> -> Phase, w: Worker, reply: Reply): Reply {
    if w.pc != Top(Decide) then reply
    else if reply == Ok then PhaseIs(phaseOf(w.obj.conditions))
    else Fail
  }

  /** Steps without a call only go forward. */
  function Places(pc: Pc): nat {
    match pc
    case Idle => 0
    case Top(Finalize) => 9
    case Top(Decide) => 8
    case Top(_) => 7
    case Setup(Services) => 7
    case Setup(Auth) => 6
    case Setup(KeyFile) => 5
    case Setup(Certificates) => 4
    case Nodes(Gate) => 4
    case Nodes(_) => 3
    case After(WriteProvisioned) => 2
    case After(_) => 1
  }

  lemma WithoutCallForward(phaseOf: seq<Condition> -> Phase, s: State)
    requires s.hist != [] && !Calls(phaseOf, s.worker)
    ensures Places(Step(s, Taken(phaseOf, s.worker, Ok)).worker.pc) < Places(s.worker.pc)
  {
    hide IsConditionTrue, HasCondition, WriteSpec;
  }

  /** The step system driven by a script: where the worker makes a call the world moves on first and
      the reply decides, elsewhere it just goes on, until it is idle. When the replies run out the
      process dies. */
  ghost function Attempted(phaseOf: seq<Condition> -> Phase, s: State, script: seq<Tick>): State
    decreases |script|, Places(s.worker.pc), 0
  {
    if s.hist == [] then s
    else if !Calls(phaseOf, s.worker) then
      WithoutCallForward(phaseOf, s);
      Rest(phaseOf, Apply(s, Act(Taken(phaseOf, s.worker, Ok))), script)
    else if script == [] then Apply(s, Crash)
    else Rest(phaseOf, Apply(Run(s, script[0].before), Act(Taken(phaseOf, s.worker, script[0].reply))), script[1..])
  }

  /** What is left of an attempt under way. */
  ghost function Rest(phaseOf: seq<Condition> -> Phase, s: State, script: seq<Tick>): State
    decreases |script|, Places(s.worker.pc), 1
  {
    if s.worker.pc == Idle then s else Attempted(phaseOf, s, script)
  }

  /** The log goes on with one note about this StatefulSet, which was made if it was not there. */
  predicate Touched(log: seq<Note>, log': seq<Note>, node: Node) {
    log <= log' && |log'| == |log| + 1 && Last(log').Ensured? && Last(log').node == node
  }

  /** The log goes on with one such note for each of the first `n` shards. */
  predicate ShardsTouched(log: seq<Note>, log': seq<Note>, n: nat) {
    && log <= log' && |log'| == |log| + n
    && forall k | |log| <= k < |log'| :: log'[k].Ensured? && log'[k].node == ShardNode(k - |log|)
  }

  /** The notes from a place on speak of ready StatefulSets only. */
  predicate AllReady(log: seq<Note>, from: nat) {
    forall k | from <= k < |log| :: log[k].Ensured? && log[k].ready
  }

  lemma SetMakesPresent(cs: seq<Condition>, c: Condition)
    ensures HasCondition(SetCondition(cs, c), c.kind)
  {
    var i := GetCondition(cs, c.kind);
    assert SetCondition(cs, c)[if i == -1 then |cs| else i].kind == c.kind;
  }

  lemma OneMoreShard(log: seq<Note>, mid: seq<Note>, log': seq<Note>, i: nat)
    requires ShardsTouched(log, mid, i) && Touched(mid, log', ShardNode(i))
    ensures ShardsTouched(log, log', i + 1)
    ensures AllReady(log', |log|) <==> AllReady(mid, |log|) && Last(log').ready
  {
    assert forall k | 0 <= k < |mid| :: log'[k] == mid[k];
    assert log'[|mid|] == Last(log');
  }

  lemma ReadyFromTheFirst(log: seq<Note>, config: seq<Note>, shards: seq<Note>)
    requires Touched(log, config, ConfigNode) && config <= shards
    ensures AllReady(shards, |log|) <==> Last(config).ready && AllReady(shards, |config|)
  {
    assert shards[|log|] == Last(config);
  }

  class Controller {
    const sharded: bool
    const phaseOf: seq<Condition> -> Phase
    // stored outside this process
    var hist: seq<Version>
    var nodes: set<Node>
    var health: Health
    var log: seq<Note>
    var script: seq<Tick>
    // the process's own variables, with the place in the code
    var w: Worker
    // the last reply, and the run of the step system this amounts to
    ghost var answer: Reply
    ghost const origin: State
    ghost var trace: seq<Event>

    ghost function Cluster(): State
      reads this
    {
      State(sharded, hist, nodes, w, health, log)
    }

    ghost predicate Valid()
      reads this
    {
      hist != [] && Cluster() == Run(origin, trace) && AllForeign(script)
    }

    /** Where an attempt begun now ends, where the one under way ends, and where it ends after a
        step on this reply. */
    ghost function Begun(): State
      reads this
    {
      Attempted(phaseOf, Cluster(), script)
    }

    ghost function Ahead(): State
      reads this
    {
      Rest(phaseOf, Cluster(), script)
    }

    ghost function Answered(reply: Reply): State
      reads this
    {
      Rest(phaseOf, Apply(Cluster(), Act(reply)), script)
    }

    /** One call has been made of this script, or there was none left and the process is gone. */
    ghost predicate Used(before: seq<Tick>)
      reads this
    {
      if before == [] then script == [] else script == before[1..] && answer == before[0].reply
    }

    /** One call has been made, and this was its reply. */
    ghost predicate Replied(before: seq<Tick>, reply: Reply)
      reads this
    {
      before != [] && before[0].reply == reply && Used(before)
    }

    /** The run so far goes on from an earlier one, and the attempt still ends where it had to. */
    ghost predicate Continues(before: seq<Event>, goal: State)
      reads this
    {
      before <= trace && Ahead() == goal
    }

    constructor (s: State, phaseOf: seq<Condition> -> Phase, script: seq<Tick>)
      requires s.hist != [] && s.worker.pc == Idle && AllForeign(script)
      ensures Valid() && w.pc == Idle && origin == s && trace == []
    {
      this.sharded, this.phaseOf, this.hist, this.nodes, this.health, this.log := s.sharded, phaseOf, s.hist, s.nodes, s.health, s.log;
      this.w, this.script, this.origin, this.trace, this.answer := s.worker, script, s, [], Fail;
    }

    /* ---------- talking to the world ---------- */

    /** The world moves on, then the next call gets its reply; None when the process dies. */
    method Call() returns (reply: Option<Reply>)
      requires Valid() && Calls(phaseOf, w)
      modifies this
      ensures Valid() && old(trace) <= trace
      ensures w == if reply.None? then old(w).(pc := Idle) else old(w)
      ensures old(hist) <= hist && nodes <= old(nodes) && log == old(log)
      ensures Used(old(script)) && (reply.None? <==> old(script) == [])
      ensures old(w).pc != Idle ==> old(Begun()) == old(Ahead())
      ensures if reply.None? then Ahead() == old(Begun())
              else Answered(Taken(phaseOf, w, reply.value)) == old(Begun()) && answer == reply.value
    {
      hide Run, AllForeign, HealthStep, OutsideStep, Step, Calls, Taken;
      if script == [] {
        RunOne(origin, trace, Crash);
        w := w.(pc := Idle);
        trace := trace + [Crash];
        return None;
      }
      var t := script[0];
      HeadIsForeign(script);
      RunConcat(origin, trace, t.before);
      ghost var before := Cluster();
      ForeignRun(before, t.before);
      var now := Run(State(sharded, hist, nodes, w, health, log), t.before);
      hist, nodes, health, script := now.hist, now.nodes, now.health, script[1..];
      trace, answer := trace + t.before, t.reply;
      reply := Some(t.reply);
    }

    /** A step is done: store its outcome, and note that the step system took the same one. */
    method Commit(reply: Reply, hist': seq<Version>, nodes': set<Node>, notes: seq<Note>, w': Worker)
      requires Valid() && hist' != []
      requires Step(Cluster(), reply) == State(sharded, hist', nodes', w', health, log + notes)
      modifies this
      ensures Valid() && Continues(old(trace), old(Answered(reply)))
      ensures w == w' && hist == hist' && nodes == nodes' && log == old(log) + notes && answer == old(answer) && script == old(script)
    {
      hide Run, Step, AllForeign, Rest;
      RunOne(origin, trace, Act(reply));
      hist, nodes, log, w := hist', nodes', log + notes, w';
      trace := trace + [Act(reply)];
    }

    method Stop(reply: Reply)
      requires Valid()
      requires Step(Cluster(), reply) == At(Cluster(), Idle)
      modifies this
      ensures Valid() && Continues(old(trace), old(Answered(reply)))
      ensures w == old(w).(pc := Idle) && hist == old(hist) && nodes == old(nodes) && log == old(log) && answer == old(answer) && script == old(script)
    {
      hide Run, Step, AllForeign, Answered, Continues;
      Commit(reply, hist, nodes, [], w.(pc := Idle));
    }

    /** A step that makes no call. */
    method Go(notes: seq<Note>, w': Worker)
      requires Valid() && w.pc != Idle && !Calls(phaseOf, w)
      requires Step(Cluster(), Taken(phaseOf, w, Ok)) == State(sharded, hist, nodes, w', health, log + notes)
      modifies this
      ensures Valid() && Continues(old(trace), old(Ahead()))
      ensures w == w' && hist == old(hist) && nodes == old(nodes) && log == old(log) + notes && script == old(script)
    {
      hide Run, Step, AllForeign, Calls, Taken, Apply;
      assert Ahead() == Begun();
      assert Begun() == Answered(Taken(phaseOf, w, Ok));
      Commit(Taken(phaseOf, w, Ok), hist, nodes, notes, w');
    }

    /** UpdateMongoDBStatus with a new condition list. */
    static method StatusWith(hist: seq<Version>, cs: seq<Condition>) returns (r: seq<Version>)
      requires hist != []
      ensures r != [] && forall s: State :: s.hist == hist ==> WriteConditions(s, cs) == s.(hist := r)
      ensures hist <= r && Last(r) == Last(hist).(conditions := cs)
    {
      var v := Last(hist).(conditions := cs);
      r := if v == Last(hist) then hist else hist + [v];
    }

    /** A patch of the spec. */
    static method SpecWith(hist: seq<Version>, spec: Spec) returns (r: seq<Version>)
      requires hist != []
      ensures r != [] && forall s: State :: s.hist == hist ==> WriteSpec(s, spec) == s.(hist := r)
      ensures hist <= r && Last(r).spec == spec && Last(r).conditions == Last(hist).conditions
    {
      var v := Last(hist);
      r := hist;
      if spec != v.spec {
        r := hist + [v.(spec := spec, generation := v.generation + 1)];
      }
    }

    /* ---------- runMongoDB ---------- */

    method GetByKey() returns (known: bool)
      requires Valid() && w.pc == Idle
      modifies this
      ensures Valid() && Continues(old(trace), old(Begun()))
      ensures w.pc == if known then Top(Finalize) else Idle
      ensures known ==> w.base < |hist| && w.obj == hist[w.base] && w.allReady
      ensures Used(old(script))
      ensures known <==> old(script) != [] && answer.Read? && answer.version < |hist|
      ensures known ==> w.base == answer.version
    {
      hide Run, AllForeign, Ahead, Begun, Answered;
      var reply := Call();
      if reply.None? {
        return false;
      }
      if reply.value.Read? && reply.value.version < |hist| {
        Commit(reply.value, hist, nodes, [], Worker(Top(Finalize), hist[reply.value.version], reply.value.version, true));
        return true;
      }
      Commit(reply.value, hist, nodes, [], w);
      return false;
    }

    /** The finalizer is patched in when the copy lacks it; the copy is then what the API returned. */
    method AddFinalizer() returns (ok: bool)
      requires Valid() && w.pc == Top(Finalize)
      modifies this
      ensures Valid() && Continues(old(trace), old(Ahead()))
      ensures w.pc == if ok then Top(Decide) else Idle
      ensures ok ==> w.obj.finalizer && w.allReady == old(w).allReady
      ensures old(w).obj.finalizer ==> ok && w.obj == old(w).obj && hist == old(hist)
      ensures ok && !old(w).obj.finalizer ==> w.obj == Last(hist) && w.base == |hist| - 1
      ensures ok <==> old(w).obj.finalizer || Replied(old(script), Ok)
      ensures old(w).obj.finalizer ==> script == old(script)
    {
      hide Run, AllForeign, Ahead, Begun, Answered;
      if w.obj.finalizer {
        Go([], w.(pc := Top(Decide)));
        return true;
      }
      var reply := Call();
      if reply.None? {
        return false;
      }
      if reply.value != Ok {
        Stop(reply.value);
        return false;
      }
      var v := Last(hist).(finalizer := true);
      var hist' := if v == Last(hist) then hist else hist + [v];
      Commit(Ok, hist', nodes, [], w.(pc := Top(Decide), obj := v, base := |hist'| - 1));
      return true;
    }

    /** The phase computed from the copy's conditions differs from the stored one: write it. */
    method UpdatePhase(phase: Phase) returns (ok: bool)
      requires Valid() && w.pc == Top(Decide) && w.obj.phase != phase && phase == phaseOf(w.obj.conditions)
      modifies this
      ensures Valid() && Continues(old(trace), old(Ahead())) && w.pc == Idle
      ensures nodes <= old(nodes) && log == old(log)
      ensures ok ==> exists v <- hist :: Last(hist) == v.(phase := phase)
      ensures Used(old(script))
      ensures ok <==> old(script) != [] && answer == Ok
    {
      hide Run, AllForeign, Step, Ahead, Begun, Answered, IsConditionTrue, HasCondition;
      var reply := Call();
      if reply.None? {
        return false;
      }
      DecideIsStep(Cluster(), Taken(phaseOf, w, reply.value));
      if reply.value != Ok {
        Stop(Fail);
        return false;
      }
      var v := Last(hist).(phase := phase);
      var hist' := if v == Last(hist) then hist else hist + [v];
      ghost var on := Last(hist);
      Commit(PhaseIs(phase), hist', nodes, [], w.(pc := Idle));
      assert on in hist;
      ok := true;
    }

    method StartProvisioning() returns (ok: bool)
      requires Valid() && w.pc == Top(Decide) && w.obj.conditions == [] && w.obj.phase == phaseOf(w.obj.conditions)
      modifies this
      ensures Valid() && Continues(old(trace), old(Ahead())) && w.pc == Idle
      ensures nodes <= old(nodes) && log == old(log)
      ensures ok ==> HasCondition(Last(hist).conditions, PROVISIONING_STARTED)
      ensures Used(old(script))
      ensures ok <==> old(script) != [] && answer == Ok
    {
      hide Run, AllForeign, Step, SetCondition, Ahead, Begun, Answered, IsConditionTrue, HasCondition;
      var reply := Call();
      if reply.None? {
        return false;
      }
      DecideIsStep(Cluster(), Taken(phaseOf, w, reply.value));
      if reply.value != Ok {
        Stop(Fail);
        return false;
      }
      var c := Condition(PROVISIONING_STARTED, StatusTrue, 0, BY_OPERATOR);
      SetMakesPresent(Last(hist).conditions, c);
      var hist' := StatusWith(hist, SetCondition(Last(hist).conditions, c));
      Commit(PhaseIs(w.obj.phase), hist', nodes, [], w.(pc := Idle));
      ok := true;
    }

    /** The spec is not halted any more, the status still says so. */
    method RemoveHalted() returns (ok: bool)
      requires Valid() && w.pc == Top(Decide) && w.obj.phase == phaseOf(w.obj.conditions)
      requires w.obj.conditions != [] && !IsConditionTrue(w.obj.conditions, PAUSED)
      requires !w.obj.spec.halted && HasCondition(w.obj.conditions, HALTED)
      modifies this
      ensures Valid() && Continues(old(trace), old(Ahead())) && w.pc == Idle
      ensures nodes <= old(nodes) && log == old(log)
      ensures ok ==> exists v <- hist :: Last(hist) == v.(conditions := RemoveCondition(v.conditions, HALTED))
      ensures Used(old(script))
      ensures ok <==> old(script) != [] && answer == Ok
    {
      hide Run, AllForeign, Step, RemoveCondition, IsConditionTrue, HasCondition, Ahead, Begun, Answered;
      var reply := Call();
      if reply.None? {
        return false;
      }
      DecideIsStep(Cluster(), Taken(phaseOf, w, reply.value));
      if reply.value != Ok {
        Stop(Fail);
        return false;
      }
      ghost var on := Last(hist);
      var hist' := StatusWith(hist, RemoveCondition(Last(hist).conditions, HALTED));
      Commit(PhaseIs(w.obj.phase), hist', nodes, [], w.(pc := Idle));
      assert on in hist;
      ok := true;
    }

    /** haltDatabase, waitUntilHalted, then the three conditions in one status write. */
    method Halt() returns (ok: bool)
      requires Valid() && w.pc == Top(HaltDelete)
      modifies this
      ensures Valid() && Continues(old(trace), old(Ahead())) && w.pc == Idle
      ensures nodes <= old(nodes) && log == old(log)
      ensures ok ==> nodes == {}
      ensures ok ==> exists v <- hist ::
                Last(hist) == v.(conditions := HaltedConditions(v.conditions, old(w).obj.generation))
      ensures ok <==> |old(script)| >= 2 && old(script)[0].reply == Ok && old(script)[1].reply == Ok
      ensures old(script) != [] && old(script)[0].reply.Partly? ==> nodes !! old(script)[0].reply.gone
    {
      hide Run, AllForeign, HaltedConditions, Ahead, Begun, Answered;
      var reply := Call();
      if reply.None? {
        return false;
      }
      if reply.value.Partly? {
        Commit(reply.value, hist, nodes - reply.value.gone, [], w.(pc := Idle));
        return false;
      }
      if reply.value != Ok {
        Stop(reply.value);
        return false;
      }
      Commit(Ok, hist, {}, [], w.(pc := Top(HaltStatus)));
      ok := UpdateHaltedStatus();
    }

    method UpdateHaltedStatus() returns (ok: bool)
      requires Valid() && w.pc == Top(HaltStatus)
      modifies this
      ensures Valid() && Continues(old(trace), old(Ahead())) && w.pc == Idle
      ensures nodes <= old(nodes) && log == old(log)
      ensures ok ==> exists v <- hist ::
                Last(hist) == v.(conditions := HaltedConditions(v.conditions, old(w).obj.generation))
      ensures Used(old(script))
      ensures ok <==> old(script) != [] && answer == Ok
    {
      hide Run, AllForeign, HaltedConditions, Ahead, Begun, Answered;
      var reply := Call();
      if reply.None? {
        return false;
      }
      if reply.value != Ok {
        Stop(reply.value);
        return false;
      }
      ghost var on := Last(hist);
      var hist' := StatusWith(hist, HaltedConditions(Last(hist).conditions, w.obj.generation));
      Commit(Ok, hist', nodes, [], w.(pc := Idle));
      assert on in hist;
      ok := true;
    }

    /** One attempt: read, finalizer, phase, first condition, pause, halt or create. The cluster is
        then the one the step system comes to on the same script, and the order of things is kept. */
    method RunMongoDB()
      requires Valid() && w.pc == Idle
      modifies this
      ensures Valid() && w.pc == Idle
      ensures old(trace) <= trace && Cluster() == Attempted(phaseOf, old(Cluster()), old(script))
      ensures (exists spec, events :: origin == Run(Start(sharded, spec), events)) ==> OrderInv(Cluster())
    {
      hide Run, AllForeign, Cluster, Attempted, OrderInv, Start;
      Attempt();
      if spec, events :| origin == Run(Start(sharded, spec), events) {
        RunConcat(Start(sharded, spec), events, trace);
        RunKeepsOrder(sharded, spec, events + trace);
      }
    }

    method Attempt()
      requires Valid() && w.pc == Idle
      modifies this
      ensures Valid() && w.pc == Idle
      ensures old(trace) <= trace && Cluster() == Attempted(phaseOf, old(Cluster()), old(script))
    {
      hide Run, AllForeign, Attempted;
      Follow();
    }

    method Follow()
      requires Valid() && w.pc == Idle
      modifies this
      ensures Valid() && w.pc == Idle && Continues(old(trace), old(Begun()))
    {
      hide Run, AllForeign, Cluster, Ahead, Begun;
      var known := GetByKey();
      if !known {
        return;
      }
      var ok := AddFinalizer();
      if ok {
        Process();
      }
    }

    /** Phase, first condition, pause, halt, un-halt or create: each status write ends the run. */
    method Process()
      requires Valid() && w.pc == Top(Decide) && w.allReady
      modifies this
      ensures Valid() && w.pc == Idle && Continues(old(trace), old(Ahead()))
      ensures WritesFirst(phaseOf, old(w).obj) || IsConditionTrue(old(w).obj.conditions, PAUSED) || old(w).obj.spec.halted ==>
                nodes <= old(nodes) && log == old(log)
      ensures var v := old(w).obj;
              v.phase == phaseOf(v.conditions) && v.conditions != []
              && (IsConditionTrue(v.conditions, PAUSED) || (v.spec.halted && !v.spec.mayHalt)) ==>
                hist == old(hist) && nodes == old(nodes) && script == old(script)
      ensures var v := old(w).obj;
              v.phase == phaseOf(v.conditions) && v.conditions != [] && !IsConditionTrue(v.conditions, PAUSED)
              && v.spec.halted && v.spec.mayHalt && |old(script)| >= 2 && old(script)[0].reply == Ok && old(script)[1].reply == Ok ==>
                && nodes == {}
                && exists u <- hist :: Last(hist) == u.(conditions := HaltedConditions(u.conditions, v.generation))
      ensures var v := old(w).obj;
              !WritesFirst(phaseOf, v) && !IsConditionTrue(v.conditions, PAUSED) && !v.spec.halted ==> old(log) + [Creating(v)] <= log
    {
      hide Run, AllForeign, IsConditionTrue, HasCondition, Step, Ahead, Begun, Answered;
      var phase := phaseOf(w.obj.conditions);
      if w.obj.phase != phase {
        var written := UpdatePhase(phase);
        return;
      }
      if w.obj.conditions == [] {
        var written := StartProvisioning();
        return;
      }
      if !IsConditionTrue(w.obj.conditions, PAUSED) && !w.obj.spec.halted && HasCondition(w.obj.conditions, HALTED) {
        var written := RemoveHalted();
        return;
      }
      DecideIsStep(Cluster(), PhaseIs(phase));
      if IsConditionTrue(w.obj.conditions, PAUSED) {
        Go([], w.(pc := Idle));
        return;
      }
      if w.obj.spec.halted {
        if !w.obj.spec.mayHalt {
          Go([], w.(pc := Idle));
          return;
        }
        Go([], w.(pc := Top(HaltDelete)));
        var halted := Halt();
        return;
      }
      Go([Creating(w.obj)], w.(pc := Setup(Services)));
      Create();
    }

    /* ---------- create ---------- */

    /** A call that changes nothing modelled here: services, RBAC, certificates. */
    method Ensure(next: Pc) returns (ok: bool)
      requires Valid()
      requires (w.pc == Setup(Services) && next == Setup(Auth))
            || (w.pc == Setup(Certificates) && next == FirstNode(Cluster()))
            || (w.pc == After(Monitoring) && next == After(WriteProvisioned))
            || (w.pc == After(Users) && next == After(Initialize))
      modifies this
      ensures Valid() && Continues(old(trace), old(Ahead()))
      ensures w == old(w).(pc := if ok then next else Idle)
      ensures old(hist) <= hist && nodes <= old(nodes) && log == old(log)
      ensures Used(old(script))
      ensures ok <==> old(script) != [] && answer == Ok
    {
      hide Run, AllForeign, Ahead, Begun, Answered;
      var reply := Call();
      if reply.None? {
        return false;
      }
      if reply.value != Ok {
        Stop(reply.value);
        return false;
      }
      Commit(Ok, hist, nodes, [], w.(pc := next));
      return true;
    }

    method EnsureAuthSecret() returns (ok: bool)
      requires Valid() && w.pc == Setup(Auth)
      modifies this
      ensures Valid() && Continues(old(trace), old(Ahead()))
      ensures old(w).obj.spec.authSecret ==>
                ok && w == old(w).(pc := Setup(KeyFile)) && hist == old(hist) && script == old(script)
      ensures !old(w).obj.spec.authSecret ==>
                && (ok <==> Replied(old(script), Ok))
                && (ok ==> w == old(w).(pc := Setup(KeyFile), obj := old(w).obj.(spec := old(w).obj.spec.(authSecret := true))))
                && (ok ==> Last(hist).spec.authSecret)
      ensures !ok ==> w == old(w).(pc := Idle)
      ensures log == old(log)
    {
      hide Run, AllForeign, WriteSpec, Ahead, Begun, Answered, IsConditionTrue, HasCondition;
      if w.obj.spec.authSecret {
        Go([], w.(pc := Setup(KeyFile)));
        return true;
      }
      ok := PatchAuthSecret();
    }

    /** The reference is patched into the spec, and into the copy. */
    method PatchAuthSecret() returns (ok: bool)
      requires Valid() && w.pc == Setup(Auth) && !w.obj.spec.authSecret
      modifies this
      ensures Valid() && Continues(old(trace), old(Ahead())) && Used(old(script))
      ensures ok <==> old(script) != [] && answer == Ok
      ensures w == if ok then old(w).(pc := Setup(KeyFile), obj := old(w).obj.(spec := old(w).obj.spec.(authSecret := true)))
                   else old(w).(pc := Idle)
      ensures ok ==> Last(hist).spec.authSecret
      ensures log == old(log)
    {
      hide Run, AllForeign, WriteSpec, Ahead, Begun, Answered;
      var reply := Call();
      if reply.None? {
        return false;
      }
      if reply.value != Ok {
        Stop(reply.value);
        return false;
      }
      var hist' := SpecWith(hist, Last(hist).spec.(authSecret := true));
      Commit(Ok, hist', nodes, [], w.(pc := Setup(KeyFile), obj := w.obj.(spec := w.obj.spec.(authSecret := true))));
      return true;
    }

    method EnsureKeyFileSecret() returns (ok: bool)
      requires Valid() && w.pc == Setup(KeyFile)
      modifies this
      ensures Valid() && Continues(old(trace), old(Ahead()))
      ensures w.pc == if ok then Setup(Certificates) else Idle
      ensures ok ==> w == old(w).(pc := Setup(Certificates), obj := w.obj) && (w.obj.spec.keyFileRequired ==> w.obj.spec.keyFileSecret)
      ensures !old(w).obj.spec.keyFileRequired ==> ok && w.obj == old(w).obj && hist == old(hist)
      ensures ok && old(w).obj.spec.keyFileRequired && !old(w).obj.spec.keyFileSecret ==> Last(hist).spec.keyFileSecret
      ensures ok <==> !old(w).obj.spec.keyFileRequired || Replied(old(script), Ok)
      ensures old(log) <= log
    {
      hide Run, AllForeign, WriteSpec, Ahead, Begun, Answered;
      if !w.obj.spec.keyFileRequired {
        Go([], w.(pc := Setup(Certificates)));
        return true;
      }
      var reply := Call();
      if reply.None? {
        return false;
      }
      if reply.value != Ok {
        Stop(reply.value);
        return false;
      }
      if w.obj.spec.keyFileSecret {
        // the patch is empty
        Commit(Ok, hist, nodes, [], w.(pc := Setup(Certificates)));
        return true;
      }
      var hist' := SpecWith(hist, Last(hist).spec.(keyFileSecret := true));
      Commit(Ok, hist', nodes, [], w.(pc := Setup(Certificates), obj := w.obj.(spec := w.obj.spec.(keyFileSecret := true))));
      return true;
    }

    /* ---------- StatefulSets ---------- */

    /** CreateOrPatch of one StatefulSet, its disruption budget, and whether it is ready. */
    method EnsureStatefulSet(node: Node, next: Pc) returns (ok: bool)
      requires Valid() && w.pc.Nodes? && node == NodeAt(w.pc.nodes)
      requires (w.pc == Nodes(Config) && next == Nodes(Shards(0, w.obj.spec.shards)))
            || (w.pc.nodes.Shard? && next == Nodes(Shards(w.pc.nodes.index + 1, w.obj.spec.shards)))
      modifies this
      ensures Valid() && Continues(old(trace), old(Ahead()))
      ensures w == old(w).(pc := if ok then next else Idle, allReady := w.allReady)
      ensures ok ==> node in nodes && Touched(old(log), log, node) && (node !in old(nodes) ==> Last(log).created)
      ensures ok ==> answer.Returned? && Last(log).ready == answer.ready && (w.allReady <==> old(w).allReady && answer.ready)
      ensures Used(old(script))
      ensures ok <==> old(script) != [] && answer.Returned?
      ensures old(log) <= log
    {
      hide Run, AllForeign, Ahead, Begun, Answered;
      var reply := Call();
      if reply.None? {
        return false;
      }
      if reply.value == Unprotected {
        Commit(reply.value, hist, nodes + {node}, [Ensured(node, node !in nodes, false)], w.(pc := Idle, allReady := false));
        return false;
      }
      if !reply.value.Returned? {
        Stop(reply.value);
        return false;
      }
      Commit(reply.value, hist, nodes + {node}, [Ensured(node, node !in nodes, reply.value.ready)],
             w.(pc := next, allReady := w.allReady && reply.value.ready));
      return true;
    }

    /** The last StatefulSet: unless the call changed nothing it has to be ready to go on. */
    method EnsureLastStatefulSet(node: Node) returns (ok: bool)
      requires Valid() && (w.pc == Nodes(Mongos) || w.pc == Nodes(Single)) && node == NodeAt(w.pc.nodes)
      modifies this
      ensures Valid() && Continues(old(trace), old(Ahead()))
      ensures w == old(w).(pc := if ok then After(AppBinding) else Idle, allReady := w.allReady)
      ensures ok ==> node in nodes && Touched(old(log), log, node) && (node !in old(nodes) ==> Last(log).created)
      ensures ok ==> answer.Returned? && Last(log).ready == answer.ready && (answer.changed || Last(log).created ==> answer.ready)
      ensures Used(old(script))
      ensures ok ==> old(script) != []
      ensures old(script) != [] && answer.Returned? ==>
                Touched(old(log), log, node) && (ok <==> (answer.changed || Last(log).created ==> answer.ready))
      ensures old(log) <= log
    {
      hide Run, AllForeign, Ahead, Begun, Answered;
      var reply := Call();
      if reply.None? {
        return false;
      }
      if reply.value == Unprotected {
        Commit(reply.value, hist, nodes + {node}, [Ensured(node, node !in nodes, false)], w.(pc := Idle, allReady := false));
        return false;
      }
      if !reply.value.Returned? {
        Stop(reply.value);
        return false;
      }
      var changed := reply.value.changed || node !in nodes;
      ok := !changed || reply.value.ready;
      Commit(reply.value, hist, nodes + {node}, [Ensured(node, node !in nodes, reply.value.ready)],
             w.(pc := if ok then After(AppBinding) else Idle, allReady := w.allReady && reply.value.ready));
    }

    /** One StatefulSet per shard, in order; the first error ends the loop and the run. */
    method EnsureShardNode() returns (ok: bool)
      requires Valid() && w.pc == Nodes(Shards(0, w.obj.spec.shards))
      modifies this
      ensures Valid() && Continues(old(trace), old(Ahead()))
      ensures w == old(w).(pc := if ok then Nodes(Gate) else Idle, allReady := w.allReady)
      ensures ok ==> ShardsTouched(old(log), log, w.obj.spec.shards)
      ensures ok ==> (w.allReady <==> old(w).allReady && AllReady(log, |old(log)|))
      ensures ok && old(w).allReady && ReadyReplies(old(script), old(w).obj.spec.shards) ==> w.allReady
      ensures ok <==> |old(script)| >= old(w).obj.spec.shards
                       && forall i | 0 <= i < old(w).obj.spec.shards :: old(script)[i].reply.Returned?
      ensures ok ==> script == old(script)[old(w).obj.spec.shards..]
      ensures old(log) <= log
    {
      hide Run, AllForeign, Cluster, Ahead, Begun, Answered;
      var shards := w.obj.spec.shards;
      for i := 0 to shards
        invariant Valid() && Continues(old(trace), old(Ahead()))
        invariant w == old(w).(pc := Nodes(Shards(i, shards)), allReady := w.allReady)
        invariant ShardsTouched(old(log), log, i)
        invariant |old(script)| >= i && script == old(script)[i..]
        invariant forall k | 0 <= k < i :: old(script)[k].reply.Returned?
        invariant old(w).allReady && ReadyReplies(old(script), i) ==> w.allReady
        invariant w.allReady <==> old(w).allReady && AllReady(log, |old(log)|)
      {
        ghost var mid := log;
        ok := EnsureStatefulSet(ShardNode(i), Nodes(Shards(i + 1, shards)));
        if !ok {
          return false;
        }
        OneMoreShard(old(log), mid, log, i);
      }
      ok := true;
    }

    /** The replies of config servers, shards and mongos with which a cluster comes up: everything
        before mongos is ready, unless the object was provisioned before, and so is mongos. */
    ghost predicate GoodNodes(script: seq<Tick>, shards: nat, provisioned: bool) {
      && |script| >= shards + 2
      && (forall i | 0 <= i < shards + 2 :: script[i].reply.Returned?)
      && (provisioned || ReadyReplies(script, shards + 1))
      && script[shards + 1].reply.ready
    }

    ghost predicate ReadyReplies(script: seq<Tick>, n: nat) {
      n <= |script| && forall i | 0 <= i < n :: script[i].reply.Returned? && script[i].reply.ready
    }

    /** Config servers, shards, and mongos once all of those are ready. */
    method EnsureTopologyCluster() returns (ok: bool)
      requires Valid() && w.pc == Nodes(Config) && w.allReady
      modifies this
      ensures Valid() && Continues(old(trace), old(Ahead()))
      ensures w == old(w).(pc := if ok then After(AppBinding) else Idle, allReady := w.allReady)
      ensures ok ==> MongosNode in nodes && |log| == |old(log)| + w.obj.spec.shards + 2
      ensures ok ==> exists config, shards :: Touched(old(log), config, ConfigNode)
                       && ShardsTouched(config, shards, w.obj.spec.shards) && Touched(shards, log, MongosNode)
                       && (IsProvisioned(w.obj) || AllReady(shards, |old(log)|))
      ensures old(log) <= log
      ensures old(GoodNodes(script, w.obj.spec.shards, IsProvisioned(w.obj))) ==> ok
    {
      hide Run, AllForeign, IsConditionTrue, Ahead, Begun, Answered;
      ok := EnsureStatefulSet(ConfigNode, Nodes(Shards(0, w.obj.spec.shards)));
      if !ok {
        return;
      }
      ghost var config := log;
      ok := EnsureShardNode();
      if !ok {
        return;
      }
      ghost var shards := log;
      ReadyFromTheFirst(old(log), config, shards);
      if !IsProvisioned(w.obj) && !w.allReady {
        Go([], w.(pc := Idle));
        return false;
      }
      Go([], w.(pc := Nodes(Mongos)));
      ok := EnsureLastStatefulSet(MongosNode);
      assert ok ==> Touched(old(log), config, ConfigNode) && ShardsTouched(config, shards, w.obj.spec.shards);
    }

    method Reconcile() returns (ok: bool)
      requires Valid() && w.pc == Nodes(if sharded then Config else Single) && w.allReady
      modifies this
      ensures Valid() && Continues(old(trace), old(Ahead()))
      ensures w == old(w).(pc := if ok then After(AppBinding) else Idle, allReady := w.allReady)
      ensures ok ==> (if sharded then MongosNode else SingleNode) in nodes
      ensures ok ==> |log| == |old(log)| + if sharded then w.obj.spec.shards + 2 else 1
      ensures old(log) <= log
    {
      hide Run, AllForeign, Cluster, Ahead, Begun;
      if sharded {
        ok := EnsureTopologyCluster();
      } else {
        ok := EnsureLastStatefulSet(SingleNode);
      }
    }

    /* ---------- after the StatefulSets ---------- */

    method EnsureAppBinding() returns (ok: bool)
      requires Valid() && w.pc == After(AppBinding)
      modifies this
      ensures Valid() && Continues(old(trace), old(Ahead()))
      ensures w == old(w).(pc := if ok then After(Monitoring) else Idle)
      ensures ok ==> !WaitsForRestore(w.obj)
      ensures Used(old(script))
      ensures ok <==> old(script) != [] && answer == Ok && !WaitsForRestore(w.obj)
      ensures old(log) <= log
    {
      hide Run, AllForeign, IsConditionTrue, HasCondition, Ahead, Begun, Answered;
      var reply := Call();
      if reply.None? {
        return false;
      }
      if reply.value != Ok {
        Stop(reply.value);
        return false;
      }
      if w.obj.spec.waitForRestore
         && !HasCondition(w.obj.conditions, PROVISIONED) && !IsConditionTrue(w.obj.conditions, DATA_RESTORED) {
        Stop(Ok);
        return false;
      }
      Commit(Ok, hist, nodes, [], w.(pc := After(Monitoring)));
      return true;
    }

    method UpdateProvisioned() returns (ok: bool)
      requires Valid() && w.pc == After(WriteProvisioned)
      modifies this
      ensures Valid() && Continues(old(trace), old(Ahead()))
      ensures w == old(w).(pc := if ok then After(Users) else Idle)
      ensures !(ShowsReady(w.obj) && !IsProvisioned(w.obj)) ==> ok && hist == old(hist) && log == old(log)
      ensures ok && ShowsReady(w.obj) && !IsProvisioned(w.obj) ==>
                && HasCondition(Last(hist).conditions, PROVISIONED)
                && |log| == |old(log)| + 1 && Last(log).ProvisionedWritten? && Last(log).snapshot == w.obj
      ensures ok <==> !(ShowsReady(w.obj) && !IsProvisioned(w.obj)) || Replied(old(script), Ok)
      ensures old(log) <= log
    {
      hide Run, AllForeign, IsConditionTrue, HasCondition, SetCondition, Ahead, Begun, Answered;
      if !ShowsReady(w.obj) || IsProvisioned(w.obj) {
        Go([], w.(pc := After(Users)));
        return true;
      }
      var reply := Call();
      if reply.None? {
        return false;
      }
      if reply.value != Ok {
        Stop(reply.value);
        return false;
      }
      var now := Last(hist).conditions;
      var c := Condition(PROVISIONED, StatusTrue, w.obj.generation, BY_OPERATOR);
      SetMakesPresent(now, c);
      var hist' := StatusWith(hist, SetCondition(now, c));
      Commit(Ok, hist', nodes, [ProvisionedWritten(w.obj, !HasCondition(now, PROVISIONED))], w.(pc := After(Users)));
      return true;
    }

    method UpdateInitialized() returns (written: bool)
      requires Valid() && w.pc == After(Initialize)
      modifies this
      ensures Valid() && w.pc == Idle && Continues(old(trace), old(Ahead()))
      ensures written ==>
                && w.obj.spec.hasInit && !w.obj.spec.initialized && IsProvisioned(w.obj) && Last(hist).spec.initialized
                && log == old(log) + [InitializedFlipped(w.obj)]
      ensures !written ==> log == old(log) && old(hist) <= hist
      ensures written <==> w.obj.spec.hasInit && !w.obj.spec.initialized && IsProvisioned(w.obj)
                            && Replied(old(script), Ok) && Last(hist).spec.hasInit
      ensures old(log) <= log
    {
      hide Run, AllForeign, IsConditionTrue, WriteSpec, Ahead, Begun, Answered;
      if !w.obj.spec.hasInit || w.obj.spec.initialized || !IsProvisioned(w.obj) {
        Go([], w.(pc := Idle));
        return false;
      }
      var reply := Call();
      if reply.None? {
        return false;
      }
      if reply.value != Ok || !Last(hist).spec.hasInit {
        Stop(reply.value);
        return false;
      }
      var hist' := SpecWith(hist, Last(hist).spec.(initialized := true));
      Commit(Ok, hist', nodes, [InitializedFlipped(w.obj)], w.(pc := Idle));
      return true;
    }

    method Create()
      requires Valid() && w.pc == Setup(Services) && w.allReady
      modifies this
      ensures Valid() && w.pc == Idle && Continues(old(trace), old(Ahead()))
      ensures old(log) <= log
    {
      hide Run, AllForeign, Ahead, Begun, Answered;
      var ok := Ensure(Setup(Auth));
      if !ok {
        return;
      }
      ok := EnsureAuthSecret();
      if !ok {
        return;
      }
      ok := EnsureKeyFileSecret();
      if !ok {
        return;
      }
      ok := Ensure(Nodes(if sharded then Config else Single));
      if !ok {
        return;
      }
      ok := Reconcile();
      if !ok {
        return;
      }
      Finish();
    }

    method Finish()
      requires Valid() && w.pc == After(AppBinding)
      modifies this
      ensures Valid() && w.pc == Idle && Continues(old(trace), old(Ahead()))
      ensures old(log) <= log
    {
      hide Run, AllForeign, Cluster, Ahead, Begun;
      var ok := EnsureAppBinding();
      if !ok {
        return;
      }
      ok := Ensure(After(WriteProvisioned));
      if !ok {
        return;
      }
      ok := UpdateProvisioned();
      if !ok {
        return;
      }
      ok := Ensure(After(Initialize));
      if ok {
        var written := UpdateInitialized();
      }
    }
  }
}
