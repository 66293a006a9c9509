/** The order in which the operator does things, over every run: which StatefulSets were ready
    when mongos first came up, what had been seen when a database was declared provisioned, and
    when the init is marked done. */
module OperatorOrder {
  import opened Common
  import opened Conditions
  import opened Operator
  import opened OperatorSafety

  /* ---------- reading the log ---------- */

  /** The copy of the object the latest call of create worked on. */
  ghost function LastCreating(log: seq<Note>): Option<Version> {
    if log == [] then None
    else if Last(log).Creating? then Some(Last(log).snapshot)
    else LastCreating(Front(log))
  }

  /** StatefulSets seen ready since that call began. */
  ghost function ReadySince(log: seq<Note>): set<Node> {
    if log == [] || Last(log).Creating? then {}
    else ReadySince(Front(log)) + (if Last(log).Ensured? && Last(log).ready then {Last(log).node} else {})
  }

  ghost predicate UpTo(ready: set<Node>, shards: nat) {
    ConfigNode in ready && forall k: nat | k < shards :: ShardNode(k) in ready
  }

  ghost predicate AllUp(log: seq<Note>) {
    LastCreating(log).Some? && UpTo(ReadySince(log), LastCreating(log).value.spec.shards)
  }

  predicate IsMongos(note: Note) {
    note.Ensured? && note.node == MongosNode
  }

  ghost predicate MongosSeen(log: seq<Note>) {
    exists n <- log :: IsMongos(n)
  }

  predicate IsFirst(note: Note) {
    note.ProvisionedWritten? && note.first
  }

  ghost predicate FirstWritten(log: seq<Note>) {
    exists n <- log :: IsFirst(n)
  }

  /** What each note says about the log before it. */
  ghost predicate Justified(sharded: bool, log: seq<Note>, note: Note) {
    match note
    case Ensured(node, _, _) => node == MongosNode ==> MongosSeen(log) || AllUp(log)
    case ProvisionedWritten(v, first) =>
      && IsConditionTrue(v.conditions, REPLICA_READY) && IsConditionTrue(v.conditions, ACCEPTING_CONNECTION)
      && IsConditionTrue(v.conditions, READY)
      && (v.spec.waitForRestore ==> IsConditionTrue(v.conditions, DATA_RESTORED))
      && (sharded ==> MongosSeen(log))
      && (first ==> !FirstWritten(log))
    case InitializedFlipped(v) => IsProvisioned(v) && FirstWritten(log)
    case _ => true
  }

  ghost predicate Sound(sharded: bool, log: seq<Note>) {
    forall i | 0 <= i < |log| :: Justified(sharded, log[..i], log[i])
  }

  lemma LogGrows(sharded: bool, log: seq<Note>, note: Note)
    ensures LastCreating(log + [note]) == if note.Creating? then Some(note.snapshot) else LastCreating(log)
    ensures ReadySince(log + [note]) ==
              if note.Creating? then {} else ReadySince(log) + (if note.Ensured? && note.ready then {note.node} else {})
    ensures MongosSeen(log + [note]) <==> MongosSeen(log) || IsMongos(note)
    ensures FirstWritten(log + [note]) <==> FirstWritten(log) || IsFirst(note)
    ensures Sound(sharded, log) && Justified(sharded, log, note) ==> Sound(sharded, log + [note])
  {
    var all := log + [note];
    assert Front(all) == log && Last(all) == note;
    forall n
      ensures n in all <==> n in log || n == note
    {
    }
    if Sound(sharded, log) && Justified(sharded, log, note) {
      forall i | 0 <= i < |all|
        ensures Justified(sharded, all[..i], all[i])
      {
        assert all[..i] == log[..i];
        if i == |log| {
          assert log[..i] == log;
        }
      }
    }
  }

  /* ---------- the invariant ---------- */

  ghost predicate InCreate(pc: Pc) {
    pc.Setup? || pc.Nodes? || pc.After?
  }

  /** What the place in the code says about the run so far. */
  ghost predicate Placed(sharded: bool, w: Worker, log: seq<Note>) {
    var pc := w.pc;
    && (InCreate(pc) ==> LastCreating(log).Some? && LastCreating(log).value.spec.shards == w.obj.spec.shards)
    && (pc.Nodes? ==> sharded != pc.nodes.Single?)
    && (pc.Nodes? && pc.nodes.Shard? ==>
          pc.nodes.index < w.obj.spec.shards && (w.allReady ==> UpTo(ReadySince(log), pc.nodes.index)))
    && (pc == Nodes(Gate) && w.allReady ==> UpTo(ReadySince(log), w.obj.spec.shards))
    && (pc == Nodes(Mongos) ==> IsProvisioned(w.obj) || AllUp(log))
    && (pc.After? && sharded ==> MongosSeen(log))
    && (pc.After? && pc != After(AppBinding) ==> !WaitsForRestore(w.obj))
  }

  ghost predicate Ordered(sharded: bool, provisioned: bool, w: Worker, log: seq<Note>) {
    && (provisioned <==> FirstWritten(log))
    && (provisioned && sharded ==> MongosSeen(log))
    && Placed(sharded, w, log)
    && Sound(sharded, log)
  }

  ghost predicate OrderInv(s: State) {
    StoredInv(s) && s.hist != [] && Ordered(s.sharded, CountsAsProvisioned(s.hist), s.worker, s.log)
  }

  /* ---------- every step keeps it ---------- */

  /** A copy that counts as provisioned stems from a version that did, and so does the current. */
  lemma SnapshotIsHistory(s: State)
    requires StoredInv(s) && s.worker.pc != Idle
    ensures s.hist != []
    ensures IsProvisioned(s.worker.obj) ==> CountsAsProvisioned(s.hist)
    ensures HasCondition(s.worker.obj.conditions, PROVISIONED) ==> IsProvisioned(s.worker.obj)
  {
    var v := s.hist[s.worker.base];
    assert Leq(v, s.hist[|s.hist| - 1]);
    assert Good(v.conditions);
    LookTells(v.conditions, PROVISIONED);
  }

  /** Nothing logged, and the worker is where nothing is claimed. */
  lemma QuietKeepsOrder(s: State, s': State)
    requires OrderInv(s) && Keeps(s, s') && s'.sharded == s.sharded && s'.log == s.log
    requires s'.worker.pc == Idle || s'.worker.pc.Top? || s'.worker == s.worker
    ensures OrderInv(s')
  {
    hide StoredInv, CountsAsProvisioned, Sound, MongosSeen, FirstWritten, AllUp, UpTo, WaitsForRestore;
  }

  lemma TopKeepsOrder(s: State, reply: Reply)
    requires OrderInv(s) && s.worker.pc.Top?
    ensures OrderInv(TopStep(s, reply))
  {
    hide CountsAsProvisioned, Sound, MongosSeen, FirstWritten, AllUp, UpTo, WaitsForRestore, Placed, Ordered, StoredInv,
      WriteConditions, WritePhase, Append, SetCondition, RemoveCondition, HaltedConditions;
    var s' := TopStep(s, reply);
    TopKeepsStored(s, reply);
    TopStaysQuiet(s, reply);
    if s'.log == s.log {
      QuietKeepsOrder(s, s');
    } else {
      CreatingKeepsOrder(s, s');
    }
  }

  lemma TopStaysQuiet(s: State, reply: Reply)
    requires s.hist != [] && s.worker.pc.Top?
    ensures var s' := TopStep(s, reply);
            && s'.sharded == s.sharded
            && (s'.log == s.log ==> s'.worker.pc == Idle || s'.worker.pc.Top?)
            && (s'.log != s.log ==> s'.log == s.log + [Creating(s.worker.obj)] && s'.worker == s.worker.(pc := Setup(Services)))
  {
    hide SetCondition, RemoveCondition, HaltedConditions, IsConditionTrue, HasCondition, Current;
  }

  lemma CreatingKeepsOrder(s: State, s': State)
    requires OrderInv(s) && Keeps(s, s') && s'.sharded == s.sharded
    requires s'.log == s.log + [Creating(s.worker.obj)] && s'.worker == s.worker.(pc := Setup(Services))
    ensures OrderInv(s')
  {
    hide StoredInv, CountsAsProvisioned, Sound, MongosSeen, FirstWritten, AllUp, UpTo, WaitsForRestore;
    LogGrows(s.sharded, s.log, Creating(s.worker.obj));
  }

  lemma SetupKeepsOrder(s: State, reply: Reply)
    requires OrderInv(s) && s.worker.pc.Setup?
    ensures OrderInv(SetupStep(s, reply))
  {
    hide CountsAsProvisioned, Sound, MongosSeen, FirstWritten, AllUp, UpTo, WaitsForRestore, StoredInv;
    SetupKeepsStored(s, reply);
    SetupMoves(s, reply);
  }

  lemma SetupMoves(s: State, reply: Reply)
    requires s.hist != [] && s.worker.pc.Setup?
    ensures var s' := SetupStep(s, reply);
            && s'.sharded == s.sharded && s'.log == s.log
            && s'.worker.obj.spec.shards == s.worker.obj.spec.shards
            && (s'.worker.pc == Idle || s'.worker.pc.Setup? || s'.worker.pc == FirstNode(s))
  {
    hide AuthStep, KeyFileStep;
    SecretMoves(s);
  }

  lemma SecretMoves(s: State)
    requires s.hist != []
    ensures var s' := AuthStep(s);
            && s'.sharded == s.sharded && s'.log == s.log
            && s'.worker.obj.spec.shards == s.worker.obj.spec.shards && s'.worker.pc == Setup(KeyFile)
    ensures var s' := KeyFileStep(s);
            && s'.sharded == s.sharded && s'.log == s.log
            && s'.worker.obj.spec.shards == s.worker.obj.spec.shards && s'.worker.pc == Setup(Certificates)
  {
  }

  lemma EnsuredKeepsSound(s: State, ready: bool)
    requires OrderInv(s) && s.worker.pc.Nodes? && s.worker.pc != Nodes(Gate)
    ensures var node := NodeAt(s.worker.pc.nodes);
            Justified(s.sharded, s.log, Ensured(node, node !in s.nodes, ready))
  {
    SnapshotIsHistory(s);
  }

  lemma NodesKeepsOrder(s: State, reply: Reply)
    requires OrderInv(s) && s.worker.pc.Nodes?
    ensures OrderInv(NodesStep(s, reply))
  {
    hide CountsAsProvisioned, Sound, MongosSeen, FirstWritten, WaitsForRestore, StoredInv, IsProvisioned, Justified, LastCreating, ReadySince;
    NodesKeepsStored(s, reply);
    if s.worker.pc != Nodes(Gate) {
      var node, ready := NodeAt(s.worker.pc.nodes), reply.Returned? && reply.ready;
      EnsuredKeepsSound(s, ready);
      LogGrows(s.sharded, s.log, Ensured(node, node !in s.nodes, ready));
    }
  }

  lemma ProvisionedKeepsOrder(s: State, cs: seq<Condition>)
    requires OrderInv(s) && s.worker.pc == After(WriteProvisioned)
    requires ShowsReady(s.worker.obj) && !IsProvisioned(s.worker.obj)
    requires cs == SetCondition(Last(s.hist).conditions, Condition(PROVISIONED, StatusTrue, s.worker.obj.generation, BY_OPERATOR))
    ensures OrderInv(ProvisionedStep(s, cs))
  {
    hide StoredInv, Sound, MongosSeen, FirstWritten, SetCondition, LastCreating, ReadySince;
    var s' := ProvisionedStep(s, cs);
    var first := !HasCondition(Current(s).conditions, PROVISIONED);
    ProvisionedCounts(s, cs);
    SnapshotIsHistory(s);
    LogGrows(s.sharded, s.log, ProvisionedWritten(s.worker.obj, first));
  }

  lemma ProvisionedCounts(s: State, cs: seq<Condition>)
    requires StoredInv(s) && s.worker.pc.After?
    requires cs == SetCondition(Last(s.hist).conditions, Condition(PROVISIONED, StatusTrue, s.worker.obj.generation, BY_OPERATOR))
    ensures s.hist != [] && ProvisionedStep(s, cs).hist != []
    ensures StoredInv(ProvisionedStep(s, cs)) && CountsAsProvisioned(ProvisionedStep(s, cs).hist)
    ensures HasCondition(Last(s.hist).conditions, PROVISIONED) <==> CountsAsProvisioned(s.hist)
  {
    assert s.hist != [];
    hide Timeline, Linked, Looking, Vouched, Look, SetCondition, Leq, HasCondition, Append;
    CurrentIsGood(s);
    LookTells(Last(s.hist).conditions, PROVISIONED);
    ProvisionedIsGood(Last(s.hist).conditions, s.worker.obj.generation, s.health);
    ConditionsSucceed(s, cs, s.health);
    ProvisionedKeepsStored(s, cs);
  }

  lemma FlippedKeepsOrder(s: State, s': State)
    requires OrderInv(s) && s.worker.pc == After(Initialize) && IsProvisioned(s.worker.obj)
    requires Keeps(s, s') && s'.log == s.log + [InitializedFlipped(s.worker.obj)] && s'.worker.pc == Idle
    ensures OrderInv(s')
  {
    hide StoredInv, Sound, MongosSeen, FirstWritten, LastCreating, ReadySince, CountsAsProvisioned, IsProvisioned, AllUp, UpTo, WaitsForRestore;
    SnapshotIsHistory(s);
    LogGrows(s.sharded, s.log, InitializedFlipped(s.worker.obj));
  }

  lemma InitializeKeepsOrder(s: State)
    requires OrderInv(s) && s.worker.pc == After(Initialize) && IsProvisioned(s.worker.obj)
    ensures OrderInv(InitializeStep(s))
  {
    assert s.hist != [];
    hide Ordered, StoredInv, CountsAsProvisioned, IsProvisioned, Keeps, WriteSpec;
    InitializeKeepsStored(s);
    var s' := InitializeStep(s);
    InitializeLogs(s);
    if s'.log == s.log {
      QuietKeepsOrder(s, s');
    } else {
      FlippedKeepsOrder(s, s');
    }
  }

  lemma InitializeLogs(s: State)
    requires s.hist != []
    ensures var s' := InitializeStep(s);
            && s'.sharded == s.sharded && s'.worker.pc == Idle
            && (s'.log == s.log || s'.log == s.log + [InitializedFlipped(s.worker.obj)])
  {
  }

  /** Between AppBinding and the last patch the worker only moves on. */
  lemma AdvanceKeepsOrder(s: State, pc: Pc)
    requires OrderInv(s) && s.worker.pc.After?
    requires pc == Idle || (pc.After? && pc != After(AppBinding))
    requires pc == Idle || s.worker.pc != After(AppBinding) || !WaitsForRestore(s.worker.obj)
    ensures OrderInv(At(s, pc))
  {
    assert s.hist != [];
    hide StoredInv, Sound, MongosSeen, FirstWritten, LastCreating, ReadySince, CountsAsProvisioned, IsProvisioned, AllUp, UpTo, WaitsForRestore;
    MoveKeepsStored(s, At(s, pc));
  }

  function WithProvisioned(s: State): seq<Condition>
    requires s.hist != []
  {
    SetCondition(Current(s).conditions, Condition(PROVISIONED, StatusTrue, s.worker.obj.generation, BY_OPERATOR))
  }

  lemma WriteProvisionedIs(s: State, reply: Reply)
    requires s.hist != [] && s.worker.pc == After(WriteProvisioned)
    ensures AfterStep(s, reply) ==
              if !(ShowsReady(s.worker.obj) && !IsProvisioned(s.worker.obj)) then At(s, After(Users))
              else if reply == Ok then ProvisionedStep(s, WithProvisioned(s))
              else At(s, Idle)
  {
    hide ShowsReady, IsProvisioned, ProvisionedStep, SetCondition, At;
  }

  lemma WriteProvisionedKeepsOrder(s: State, reply: Reply)
    requires OrderInv(s) && s.worker.pc == After(WriteProvisioned)
    ensures OrderInv(AfterStep(s, reply))
  {
    assert s.hist != [];
    AdvanceKeepsOrder(s, Idle);
    AdvanceKeepsOrder(s, After(Users));
    WriteProvisionedIs(s, reply);
    assert WithProvisioned(s) == SetCondition(Last(s.hist).conditions, Condition(PROVISIONED, StatusTrue, s.worker.obj.generation, BY_OPERATOR));
    hide *;
    if ShowsReady(s.worker.obj) && !IsProvisioned(s.worker.obj) {
      ProvisionedKeepsOrder(s, WithProvisioned(s));
    }
  }

  lemma AfterKeepsOrder(s: State, reply: Reply)
    requires OrderInv(s) && s.worker.pc.After?
    ensures OrderInv(AfterStep(s, reply))
  {
    assert s.hist != [];
    var w := s.worker;
    if w.pc == After(WriteProvisioned) {
      WriteProvisionedKeepsOrder(s, reply);
    } else {
      hide OrderInv, IsProvisioned, ShowsReady, WaitsForRestore, ProvisionedStep, InitializeStep, SetCondition, At, Current;
      AdvanceKeepsOrder(s, Idle);
      match w.pc.after {
        case AppBinding =>
          if !WaitsForRestore(w.obj) {
            AdvanceKeepsOrder(s, After(Monitoring));
          }
        case Monitoring => AdvanceKeepsOrder(s, After(WriteProvisioned));
        case Users => AdvanceKeepsOrder(s, After(Initialize));
        case Initialize =>
          if IsProvisioned(w.obj) {
            InitializeKeepsOrder(s);
          }
      }
    }
  }

  lemma BeginKeepsOrder(s: State, reply: Reply)
    requires OrderInv(s) && s.worker.pc == Idle
    ensures OrderInv(Begin(s, reply))
  {
    hide StoredInv, CountsAsProvisioned, Sound, MongosSeen, FirstWritten;
    BeginKeepsStored(s, reply);
    QuietKeepsOrder(s, Begin(s, reply));
  }

  lemma OthersStayQuiet(s: State, e: Event)
    requires s.hist != []
    ensures var h := HealthStep(s, e); h.sharded == s.sharded && h.log == s.log && h.worker == s.worker
    ensures var o := OutsideStep(s, e); o.sharded == s.sharded && o.log == s.log && o.worker == s.worker
  {
    hide SetCondition, RemoveCondition, BothFalse, Current;
  }

  lemma ApplyKeepsOrder(s: State, e: Event)
    requires OrderInv(s)
    ensures OrderInv(Apply(s, e))
  {
    assert s.hist != [];
    hide Ordered, StoredInv, Keeps, Begin, TopStep, SetupStep, NodesStep, AfterStep, HealthStep, OutsideStep;
    match e {
      case Act(reply) =>
        match s.worker.pc {
          case Idle => BeginKeepsOrder(s, reply);
          case Top(_) => TopKeepsOrder(s, reply);
          case Setup(_) => SetupKeepsOrder(s, reply);
          case Nodes(_) => NodesKeepsOrder(s, reply);
          case After(_) => AfterKeepsOrder(s, reply);
        }
      case Crash =>
        MoveKeepsStored(s, At(s, Idle));
        QuietKeepsOrder(s, At(s, Idle));
      case _ =>
        OthersStayQuiet(s, e);
        HealthKeepsStored(s, e);
        OutsideKeepsStored(s, e);
        QuietKeepsOrder(s, HealthStep(s, e));
        QuietKeepsOrder(s, OutsideStep(s, e));
    }
  }

  lemma StartIsOrdered(sharded: bool, spec: Spec)
    ensures OrderInv(Start(sharded, spec))
  {
    StartIsStored(sharded, spec);
  }

  lemma {:induction false} RunKeepsOrder(sharded: bool, spec: Spec, events: seq<Event>)
    ensures OrderInv(Run(Start(sharded, spec), events))
    ensures Run(Start(sharded, spec), events).sharded == sharded
  {
    hide OrderInv, Start, Apply;
    if events == [] {
      StartIsOrdered(sharded, spec);
      StartIsSharded(sharded, spec);
    } else {
      var before := Run(Start(sharded, spec), Front(events));
      RunKeepsOrder(sharded, spec, Front(events));
      ApplyKeepsOrder(before, Last(events));
      RunKeepsStored(sharded, spec, Front(events));
      ApplyKeepsStored(before, Last(events));
    }
  }

  lemma StartIsSharded(sharded: bool, spec: Spec)
    ensures Start(sharded, spec).sharded == sharded
  {
  }

  /* ---------- the promises ---------- */

  function LogOf(sharded: bool, spec: Spec, events: seq<Event>): seq<Note> {
    Run(Start(sharded, spec), events).log
  }

  lemma RunIsSound(sharded: bool, spec: Spec, events: seq<Event>)
    ensures Sound(sharded, LogOf(sharded, spec, events))
  {
    RunKeepsOrder(sharded, spec, events);
  }

  lemma {:induction false} CreatingHasAPlace(log: seq<Note>) returns (j: nat)
    requires LastCreating(log).Some?
    ensures j < |log| && log[j] == Creating(LastCreating(log).value)
    ensures forall k | j < k < |log| :: !log[k].Creating?
    ensures forall node <- ReadySince(log) :: exists m | j < m < |log| :: log[m].Ensured? && log[m].node == node && log[m].ready
  {
    if Last(log).Creating? {
      j := |log| - 1;
    } else {
      j := CreatingHasAPlace(Front(log));
      assert forall k | 0 <= k < |log| - 1 :: Front(log)[k] == log[k];
      forall node | node in ReadySince(log)
        ensures exists m | j < m < |log| :: log[m].Ensured? && log[m].node == node && log[m].ready
      {
        if node in ReadySince(Front(log)) {
          var m :| j < m < |log| - 1 && Front(log)[m].Ensured? && Front(log)[m].node == node && Front(log)[m].ready;
          assert log[m].Ensured? && log[m].node == node && log[m].ready;
        } else {
          assert log[|log| - 1].Ensured? && log[|log| - 1].node == node && log[|log| - 1].ready;
        }
      }
    }
  }

  /** Seen ready between two places of the log. */
  ghost predicate SeenReady(log: seq<Note>, node: Node, from: int, to: int)
    requires 0 <= from <= to <= |log|
  {
    exists m | from <= m < to :: log[m].Ensured? && log[m].node == node && log[m].ready
  }

  lemma FirstMongosIsLast(sharded: bool, log: seq<Note>, i: nat) returns (j: nat)
    requires Sound(sharded, log) && i < |log| && IsMongos(log[i])
    requires forall k | 0 <= k < i :: !IsMongos(log[k])
    ensures j < i && log[j].Creating?
    ensures forall k | j < k < i :: !log[k].Creating?
    ensures SeenReady(log, ConfigNode, j, i)
    ensures forall k: nat | k < log[j].snapshot.spec.shards :: SeenReady(log, ShardNode(k), j, i)
  {
    var before := log[..i];
    assert Justified(sharded, before, log[i]);
    assert !MongosSeen(before);
    j := CreatingHasAPlace(before);
    assert forall m | 0 <= m < i :: before[m] == log[m];
    forall node | node in ReadySince(before)
      ensures SeenReady(log, node, j, i)
    {
      var m :| j < m < |before| && before[m].Ensured? && before[m].node == node && before[m].ready;
      assert log[m].Ensured? && log[m].node == node && log[m].ready;
    }
  }

  /** Bring-up order, for every number of shards: when the mongos StatefulSet is touched for the
      first time, that same call of create had seen the config servers and all shards ready. */
  lemma BringUpOrder(sharded: bool, spec: Spec, events: seq<Event>, i: nat) returns (j: nat)
    requires var log := LogOf(sharded, spec, events);
             i < |log| && IsMongos(log[i]) && forall k | 0 <= k < i :: !IsMongos(log[k])
    ensures var log := LogOf(sharded, spec, events);
            && j < i && log[j].Creating? && (forall k | j < k < i :: !log[k].Creating?)
            && SeenReady(log, ConfigNode, j, i)
            && forall k: nat | k < log[j].snapshot.spec.shards :: SeenReady(log, ShardNode(k), j, i)
  {
    RunIsSound(sharded, spec, events);
    j := FirstMongosIsLast(sharded, LogOf(sharded, spec, events), i);
  }

  /** A database is declared provisioned only by a run whose copy showed all three conditions
      and, if it was to wait for a restore, the data restored; mongos had been brought up. */
  lemma ProvisionedIsEarned(sharded: bool, spec: Spec, events: seq<Event>, i: nat)
    requires var log := LogOf(sharded, spec, events); i < |log| && log[i].ProvisionedWritten?
    ensures var log := LogOf(sharded, spec, events);
            var v := log[i].snapshot;
            && ShowsReady(v)
            && (v.spec.waitForRestore ==> IsConditionTrue(v.conditions, DATA_RESTORED))
            && (sharded ==> exists k | 0 <= k < i :: IsMongos(log[k]))
            && (log[i].first ==> forall k | 0 <= k < i :: !IsFirst(log[k]))
  {
    RunIsSound(sharded, spec, events);
    var log := LogOf(sharded, spec, events);
    assert Justified(sharded, log[..i], log[i]);
    assert forall k | 0 <= k < i :: log[..i][k] == log[k];
    if sharded {
      var n :| n in log[..i] && IsMongos(n);
    }
    if log[i].first {
      forall k | 0 <= k < i
        ensures !IsFirst(log[k])
      {
        assert log[..i][k] == log[k];
      }
    }
  }

  /** The condition is stored exactly if some run wrote it: nobody else declares provisioning. */
  lemma ProvisionedExactlyWhenWritten(sharded: bool, spec: Spec, events: seq<Event>)
    ensures var s := Run(Start(sharded, spec), events);
            s.hist != [] && (HasCondition(Current(s).conditions, PROVISIONED) <==> exists n <- s.log :: IsFirst(n))
  {
    RunKeepsOrder(sharded, spec, events);
    var s := Run(Start(sharded, spec), events);
    LookTells(Current(s).conditions, PROVISIONED);
  }

  /** The init is marked done only on a copy that counts as provisioned, after the condition was
      first written. */
  lemma InitializedAfterProvisioned(sharded: bool, spec: Spec, events: seq<Event>, i: nat)
    requires var log := LogOf(sharded, spec, events); i < |log| && log[i].InitializedFlipped?
    ensures var log := LogOf(sharded, spec, events);
            IsProvisioned(log[i].snapshot) && exists k | 0 <= k < i :: IsFirst(log[k])
  {
    RunIsSound(sharded, spec, events);
    var log := LogOf(sharded, spec, events);
    assert Justified(sharded, log[..i], log[i]);
    var n :| n in log[..i] && IsFirst(n);
    assert forall k | 0 <= k < i :: log[..i][k] == log[k];
  }
}
