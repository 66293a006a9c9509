/** What every run of the operator keeps. First the stored versions and their conditions, with
    the interplay of worker and health checker; then the order in which things happen. */
module OperatorSafety {
  import opened Common
  import opened Conditions
  import opened Operator

  /* ---------- one condition of a list ---------- */

  function Look(cs: seq<Condition>, kind: Kind): Option<Condition> {
    var i := GetCondition(cs, kind);
    if i == -1 then None else Some(cs[i])
  }

  lemma LookSet(cs: seq<Condition>, c: Condition, kind: Kind)
    requires UniqueKinds(cs)
    ensures UniqueKinds(SetCondition(cs, c))
    ensures var was := Look(cs, kind);
            Look(SetCondition(cs, c), kind) ==
              if kind == c.kind && (was.None? || was.value.observedGeneration <= c.observedGeneration) then Some(c) else was
  {
    SetKeepsUniqueKinds(cs, c);
    if kind != c.kind {
      SetFramesOtherKinds(cs, c, kind);
    } else {
      var i := GetCondition(cs, kind);
      if i == -1 || cs[i].observedGeneration <= c.observedGeneration {
        SetInstalls(cs, c);
      }
    }
  }

  lemma LookRemove(cs: seq<Condition>, gone: Kind, kind: Kind)
    requires UniqueKinds(cs) && kind != gone
    ensures UniqueKinds(RemoveCondition(cs, gone))
    ensures Look(RemoveCondition(cs, gone), kind) == Look(cs, kind)
  {
    RemoveKeepsUniqueKinds(cs, gone);
    RemovedContent(cs, gone);
    var i, g := GetCondition(cs, gone), GetCondition(cs, kind);
    var r := RemoveCondition(cs, gone);
    if i != -1 && g != -1 {
      assert r[if g < i then g else g - 1] == cs[g];
    } else if i != -1 {
      assert forall j | 0 <= j < |r| :: r[j] == cs[if j < i then j else j + 1];
    }
  }

  lemma LookTells(cs: seq<Condition>, kind: Kind)
    requires UniqueKinds(cs)
    ensures HasCondition(cs, kind) <==> Look(cs, kind).Some?
    ensures IsConditionTrue(cs, kind) <==> Look(cs, kind).Some? && Look(cs, kind).value.status == StatusTrue
    ensures Look(cs, kind).Some? ==> Look(cs, kind).value.kind == kind
  {
    var i := GetCondition(cs, kind);
    if IsConditionTrue(cs, kind) {
      var j :| 0 <= j < |cs| && cs[j].kind == kind && cs[j].status == StatusTrue;
      assert i == j;
    }
  }

  /* ---------- good condition lists ---------- */

  predicate IsTrue(c: Option<Condition>) {
    c.Some? && c.value.status == StatusTrue
  }

  /** Ready is never newer than AcceptingConnection, and whenever AcceptingConnection is not
      true, Ready was taken down together with it. */
  ghost predicate Paired(a: Option<Condition>, r: Option<Condition>) {
    && (r.Some? ==> a.Some? && r.value.observedGeneration <= a.value.observedGeneration)
    && (a.Some? && !IsTrue(a) ==>
          r.Some? && !IsTrue(r) && r.value.observedGeneration == a.value.observedGeneration)
  }

  ghost predicate Good(cs: seq<Condition>) {
    && UniqueKinds(cs)
    && Paired(Look(cs, ACCEPTING_CONNECTION), Look(cs, READY))
    && (Look(cs, PROVISIONED).Some? ==> IsTrue(Look(cs, PROVISIONED)))
  }

  /** What a round that has written AcceptingConnection may rely on until it writes Ready: if the
      condition is down again, somebody with a newer generation took it down. */
  ghost predicate Vouched(h: Health, cs: seq<Condition>) {
    h.Accepted? ==>
      var a := Look(cs, ACCEPTING_CONNECTION);
      && a.Some? && h.generation <= a.value.observedGeneration
      && (!IsTrue(a) ==> h.generation < a.value.observedGeneration)
  }

  lemma BothFalseIsGood(cs: seq<Condition>, generation: nat, h: Health)
    requires Good(cs) && Vouched(h, cs)
    requires h.Accepted? ==> h.generation != generation
    ensures Good(BothFalse(cs, generation)) && Vouched(h, BothFalse(cs, generation))
    ensures Look(BothFalse(cs, generation), PROVISIONED) == Look(cs, PROVISIONED)
  {
    hide Look, SetCondition;
    var a := Condition(ACCEPTING_CONNECTION, StatusFalse, generation, BY_OPERATOR);
    var one := SetCondition(cs, a);
    var r := Condition(READY, StatusFalse, generation, BY_OPERATOR);
    LookSet(cs, a, ACCEPTING_CONNECTION);
    LookSet(cs, a, READY);
    LookSet(cs, a, PROVISIONED);
    LookSet(one, r, ACCEPTING_CONNECTION);
    LookSet(one, r, READY);
    LookSet(one, r, PROVISIONED);
  }

  lemma AcceptingIsGood(cs: seq<Condition>, generation: nat)
    requires Good(cs)
    ensures var r := SetCondition(cs, Condition(ACCEPTING_CONNECTION, StatusTrue, generation, BY_OPERATOR));
            Good(r) && Vouched(Accepted(generation), r) && Look(r, PROVISIONED) == Look(cs, PROVISIONED)
  {
    hide Look, SetCondition;
    forall kind {
      LookSet(cs, Condition(ACCEPTING_CONNECTION, StatusTrue, generation, BY_OPERATOR), kind);
    }
  }

  lemma ReadyIsGood(cs: seq<Condition>, generation: nat)
    requires Good(cs) && Vouched(Accepted(generation), cs)
    ensures var r := SetCondition(cs, Condition(READY, StatusTrue, generation, BY_OPERATOR));
            Good(r) && Look(r, PROVISIONED) == Look(cs, PROVISIONED)
  {
    hide Look, SetCondition;
    forall kind {
      LookSet(cs, Condition(READY, StatusTrue, generation, BY_OPERATOR), kind);
    }
  }

  lemma ProvisionedIsGood(cs: seq<Condition>, generation: nat, h: Health)
    requires Good(cs) && Vouched(h, cs)
    ensures var r := SetCondition(cs, Condition(PROVISIONED, StatusTrue, generation, BY_OPERATOR));
            Good(r) && Vouched(h, r) && Look(r, PROVISIONED).Some?
  {
    hide Look, SetCondition;
    forall kind {
      LookSet(cs, Condition(PROVISIONED, StatusTrue, generation, BY_OPERATOR), kind);
    }
  }

  /** Conditions of other kinds come and go without touching any of this. */
  lemma OthersAreGood(cs: seq<Condition>, c: Condition, h: Health)
    requires Good(cs) && Vouched(h, cs)
    requires c.kind != ACCEPTING_CONNECTION && c.kind != READY && c.kind != PROVISIONED
    ensures Good(SetCondition(cs, c)) && Vouched(h, SetCondition(cs, c))
    ensures Look(SetCondition(cs, c), PROVISIONED) == Look(cs, PROVISIONED)
    ensures Good(RemoveCondition(cs, c.kind)) && Vouched(h, RemoveCondition(cs, c.kind))
    ensures Look(RemoveCondition(cs, c.kind), PROVISIONED) == Look(cs, PROVISIONED)
  {
    hide Look, SetCondition, RemoveCondition;
    forall kind {
      LookSet(cs, c, kind);
    }
    forall kind | kind != c.kind {
      LookRemove(cs, c.kind, kind);
    }
    RemoveKeepsUniqueKinds(cs, c.kind);
  }

  lemma HaltIsGood(cs: seq<Condition>, generation: nat, h: Health)
    requires Good(cs) && Vouched(h, cs)
    requires h.Accepted? ==> h.generation != generation
    ensures var r := HaltedConditions(cs, generation);
            Good(r) && Vouched(h, r) && Look(r, PROVISIONED) == Look(cs, PROVISIONED)
  {
    var c := Condition(HALTED, StatusTrue, generation, BY_OPERATOR);
    OthersAreGood(cs, c, h);
    BothFalseIsGood(SetCondition(cs, c), generation, h);
  }

  /* ---------- the history of versions ---------- */

  /** A later version: a generation names one spec, and Provisioned never goes away. */
  ghost predicate Leq(v: Version, w: Version) {
    && v.generation <= w.generation
    && (v.generation == w.generation ==> v.spec == w.spec)
    && (Look(v.conditions, PROVISIONED).Some? ==> Look(w.conditions, PROVISIONED).Some?)
  }

  ghost predicate Timeline(hist: seq<Version>) {
    && hist != []
    && (forall i, j | 0 <= i <= j < |hist| :: Leq(hist[i], hist[j]))
    && (forall i | 0 <= i < |hist| :: Good(hist[i].conditions))
  }

  /** The worker's copy is a stored version, up to the two secret references it sets itself. */
  ghost predicate Linked(w: Worker, hist: seq<Version>) {
    w.pc == Idle ||
    (&& w.base < |hist|
     && w.obj.generation == hist[w.base].generation
     && w.obj.conditions == hist[w.base].conditions
     && w.obj.spec == hist[w.base].spec.(authSecret := w.obj.spec.authSecret, keyFileSecret := w.obj.spec.keyFileSecret)
     && (w.pc == Top(HaltStatus) || w.pc == Top(HaltDelete) ==> w.obj.spec.halted && w.obj.spec.mayHalt))
  }

  /** The running round looked at a version that was not halted. */
  ghost predicate Looking(h: Health, hist: seq<Version>) {
    h.Accepted? ==> exists i | 0 <= i < |hist| :: hist[i].generation == h.generation && !hist[i].spec.halted
  }

  ghost predicate StoredInv(s: State) {
    Timeline(s.hist) && Linked(s.worker, s.hist) && Looking(s.health, s.hist) && Vouched(s.health, Last(s.hist).conditions)
  }

  ghost predicate CountsAsProvisioned(hist: seq<Version>)
    requires hist != []
  {
    Look(Last(hist).conditions, PROVISIONED).Some?
  }

  /** The invariant holds still, and the Provisioned condition is there exactly if it was before. */
  ghost predicate Keeps(s: State, s': State)
    requires s.hist != []
  {
    && StoredInv(s') && s'.hist != [] && s'.sharded == s.sharded
    && (CountsAsProvisioned(s'.hist) <==> CountsAsProvisioned(s.hist))
  }

  /** The new current version is a good successor. */
  ghost predicate Succeeds(hist: seq<Version>, hist': seq<Version>, h: Health)
    requires hist != []
  {
    hist' != [] && Leq(Last(hist), Last(hist')) && Good(Last(hist').conditions) && Vouched(h, Last(hist').conditions) &&
    (hist' == hist || hist' == hist + [Last(hist')])
  }

  lemma GrowKeepsTimeline(hist: seq<Version>, hist': seq<Version>, h: Health)
    requires Timeline(hist) && Succeeds(hist, hist', h)
    ensures Timeline(hist')
    ensures |hist| <= |hist'| && forall i | 0 <= i < |hist| :: hist'[i] == hist[i]
  {
    hide Good, Vouched, Look;
    if hist' != hist {
      var v := Last(hist');
      forall i, j | 0 <= i <= j < |hist'|
        ensures Leq(hist'[i], hist'[j])
      {
        if j == |hist| && i < j {
          assert Leq(hist[i], hist[j - 1]) && Leq(hist[j - 1], v);
        }
      }
    }
  }

  lemma StoredGrows(s: State, s': State)
    requires StoredInv(s) && Succeeds(s.hist, s'.hist, s'.health)
    requires Linked(s'.worker, s.hist) && Looking(s'.health, s.hist)
    ensures StoredInv(s')
  {
    hide Good, Vouched, Look, Leq;
    GrowKeepsTimeline(s.hist, s'.hist, s'.health);
    if s'.health.Accepted? {
      var i :| 0 <= i < |s.hist| && s.hist[i].generation == s'.health.generation && !s.hist[i].spec.halted;
      assert s'.hist[i] == s.hist[i];
    }
  }

  lemma AppendSucceeds(s: State, v: Version, h: Health)
    requires s.hist != []
    requires Leq(Current(s), v) && Good(v.conditions) && Vouched(h, v.conditions)
    ensures Succeeds(s.hist, Append(s, v).hist, h)
    ensures Last(Append(s, v).hist) == v
  {
    hide Good, Vouched, Look, Leq;
  }

  lemma SpecSucceeds(s: State, spec: Spec)
    requires StoredInv(s)
    ensures Succeeds(s.hist, WriteSpec(s, spec).hist, s.health)
    ensures Last(WriteSpec(s, spec).hist).conditions == Last(s.hist).conditions
    ensures var s' := WriteSpec(s, spec); s' == s.(hist := s'.hist)
  {
    hide Good, Vouched, Look, SetCondition;
    assert Leq(Current(s), Current(s));
    if spec != Current(s).spec {
      AppendSucceeds(s, Current(s).(spec := spec, generation := Current(s).generation + 1), s.health);
    }
  }

  lemma ConditionsSucceed(s: State, cs: seq<Condition>, h: Health)
    requires s.hist != [] && Good(cs) && Vouched(h, cs)
    requires Look(Current(s).conditions, PROVISIONED).Some? ==> Look(cs, PROVISIONED).Some?
    ensures Succeeds(s.hist, WriteConditions(s, cs).hist, h)
    ensures Last(WriteConditions(s, cs).hist).conditions == cs
    ensures var s' := WriteConditions(s, cs); s' == s.(hist := s'.hist)
  {
    hide Good, Vouched, Look;
    AppendSucceeds(s, Current(s).(conditions := cs), h);
  }

  lemma SameSucceeds(s: State)
    requires StoredInv(s)
    ensures Succeeds(s.hist, s.hist, s.health)
  {
    hide Good, Vouched, Look;
    assert Leq(s.hist[|s.hist| - 1], s.hist[|s.hist| - 1]);
  }

  /** The version a halt was decided on and the one a round looked at differ in generation. */
  lemma HaltIsNoRound(s: State)
    requires StoredInv(s) && (s.worker.pc == Top(HaltStatus)) && s.health.Accepted?
    ensures s.worker.obj.generation != s.health.generation
  {
    hide Good, Vouched, Look;
    var i :| 0 <= i < |s.hist| && s.hist[i].generation == s.health.generation && !s.hist[i].spec.halted;
    var b := s.worker.base;
    assert Leq(s.hist[if i <= b then i else b], s.hist[if i <= b then b else i]);
  }

  /* ---------- every event keeps it ---------- */

  lemma BeginKeepsStored(s: State, reply: Reply)
    requires StoredInv(s) && s.worker.pc == Idle
    ensures Keeps(s, Begin(s, reply))
  {
    assert s.hist != [];
    hide Good, Vouched, Look, Timeline, Looking;
  }

  lemma MoveKeepsStored(s: State, s': State)
    requires StoredInv(s) && s'.hist == s.hist && s'.health == s.health && s'.sharded == s.sharded
    requires Linked(s'.worker, s.hist)
    ensures s.hist != [] && Keeps(s, s')
  {
    assert s.hist != [];
    hide Good, Vouched, Look, Timeline, Looking, Linked;
  }

  lemma HaltKeepsStored(s: State)
    requires StoredInv(s) && s.worker.pc == Top(HaltStatus)
    ensures Keeps(s, TopStep(s, Ok))
  {
    hide Good, Vouched, Look, Timeline, Looking, HaltedConditions, Leq, Append;
    var now := Current(s).conditions;
    var cs := HaltedConditions(now, s.worker.obj.generation);
    assert Good(now) && Vouched(s.health, now) by { CurrentIsGood(s); }
    if s.health.Accepted? {
      HaltIsNoRound(s);
    }
    HaltIsGood(now, s.worker.obj.generation, s.health);
    ConditionsSucceed(s, cs, s.health);
    StoredGrows(s, At(WriteConditions(s, cs), Idle));
  }

  lemma CurrentIsGood(s: State)
    requires StoredInv(s)
    ensures Good(Current(s).conditions) && Vouched(s.health, Current(s).conditions)
  {
  }

  lemma FinalizeKeepsStored(s: State, reply: Reply)
    requires StoredInv(s) && s.worker.pc == Top(Finalize)
    ensures Keeps(s, TopStep(s, reply))
  {
    hide Good, Vouched, Look, Timeline, Looking;
    CurrentIsGood(s);
    SameSucceeds(s);
    if !s.worker.obj.finalizer && reply == Ok {
      var v := Current(s).(finalizer := true);
      var s1 := Append(s, v);
      AppendSucceeds(s, v, s.health);
      StoredGrows(s, At(s1, Idle));
      assert s1.hist[|s1.hist| - 1] == v;
      MoveKeepsStored(At(s1, Idle), TopStep(s, reply));
    } else {
      MoveKeepsStored(s, TopStep(s, reply));
    }
  }

  lemma OtherWriteKeepsStored(s: State, c: Condition)
    requires StoredInv(s)
    requires c.kind != ACCEPTING_CONNECTION && c.kind != READY && c.kind != PROVISIONED
    ensures var now := Last(s.hist).conditions;
            && Keeps(s, At(WriteConditions(s, SetCondition(now, c)), Idle))
            && Keeps(s, At(WriteConditions(s, RemoveCondition(now, c.kind)), Idle))
  {
    assert s.hist != [];
    hide Good, Vouched, Look, Timeline, Looking, SetCondition, RemoveCondition, WriteConditions, Leq;
    var now := Current(s).conditions;
    CurrentIsGood(s);
    OthersAreGood(now, c, s.health);
    ConditionsSucceed(s, SetCondition(now, c), s.health);
    StoredGrows(s, At(WriteConditions(s, SetCondition(now, c)), Idle));
    ConditionsSucceed(s, RemoveCondition(now, c.kind), s.health);
    StoredGrows(s, At(WriteConditions(s, RemoveCondition(now, c.kind)), Idle));
  }

  lemma PhaseKeepsStored(s: State, phase: Phase)
    requires StoredInv(s)
    ensures s.hist != [] && Keeps(s, At(WritePhase(s, phase), Idle))
  {
    assert s.hist != [];
    hide Good, Vouched, Look, Timeline, Looking;
    CurrentIsGood(s);
    SameSucceeds(s);
    AppendSucceeds(s, Current(s).(phase := phase), s.health);
    StoredGrows(s, At(WritePhase(s, phase), Idle));
  }

  lemma DecideKeepsStored(s: State, phase: Phase)
    requires StoredInv(s) && s.worker.pc == Top(Decide)
    ensures Keeps(s, DecideStep(s, phase))
  {
    assert s.hist != [];
    hide Good, Vouched, Look, Timeline, Looking, Leq, SetCondition, HaltOrCreate, IsConditionTrue, WriteConditions, WritePhase, Keeps;
    PhaseKeepsStored(s, phase);
    OtherWriteKeepsStored(s, Condition(PROVISIONING_STARTED, StatusTrue, 0, BY_OPERATOR));
    MoveKeepsStored(s, At(s, Idle));
    HaltOrCreateKeepsStored(s);
  }

  lemma HaltOrCreateKeepsStored(s: State)
    requires StoredInv(s) && s.worker.pc == Top(Decide)
    ensures s.hist != [] && Keeps(s, HaltOrCreate(s))
  {
    assert s.hist != [];
    hide Good, Vouched, Look, Timeline, Looking, Leq, RemoveCondition, HasCondition, WriteConditions, Keeps;
    OtherWriteKeepsStored(s, Condition(HALTED, StatusTrue, 0, BY_OPERATOR));
    MoveKeepsStored(s, At(s, Idle));
    MoveKeepsStored(s, At(Noted(s, Creating(s.worker.obj)), Setup(Services)));
    if s.worker.obj.spec.halted && s.worker.obj.spec.mayHalt {
      MoveKeepsStored(s, At(s, Top(HaltDelete)));
    }
  }

  lemma TopKeepsStored(s: State, reply: Reply)
    requires StoredInv(s) && s.worker.pc.Top?
    ensures Keeps(s, TopStep(s, reply))
  {
    hide Good, Vouched, Look, Timeline, Looking, DecideStep, WriteConditions, Append;
    match s.worker.pc {
      case Top(Finalize) => FinalizeKeepsStored(s, reply);
      case Top(Decide) =>
        if reply.PhaseIs? {
          DecideKeepsStored(s, reply.phase);
        } else {
          MoveKeepsStored(s, TopStep(s, reply));
        }
      case Top(HaltDelete) => MoveKeepsStored(s, TopStep(s, reply));
      case Top(HaltStatus) =>
        if reply == Ok {
          HaltKeepsStored(s);
        } else {
          MoveKeepsStored(s, TopStep(s, reply));
        }
    }
  }

  lemma SpecWriteKeepsStored(s: State, spec: Spec, w: Worker)
    requires StoredInv(s) && Linked(w, s.hist)
    ensures Keeps(s, WriteSpec(s, spec).(worker := w))
  {
    assert s.hist != [];
    hide Good, Vouched, Look, Timeline, Looking, WriteSpec, Linked, Leq;
    SpecSucceeds(s, spec);
    StoredGrows(s, WriteSpec(s, spec).(worker := w));
  }

  lemma SecretsKeepStored(s: State)
    requires StoredInv(s) && s.worker.pc.Setup?
    ensures s.hist != [] && Keeps(s, AuthStep(s)) && Keeps(s, KeyFileStep(s))
  {
    assert s.hist != [];
    hide Good, Vouched, Look, Timeline, Looking, Leq, WriteSpec, Keeps;
    SpecWriteKeepsStored(s, Current(s).spec.(authSecret := true), AuthStep(s).worker);
    SpecWriteKeepsStored(s, Current(s).spec.(keyFileSecret := true), KeyFileStep(s).worker);
  }

  lemma SetupKeepsStored(s: State, reply: Reply)
    requires StoredInv(s) && s.worker.pc.Setup?
    ensures Keeps(s, SetupStep(s, reply))
  {
    assert s.hist != [];
    hide Good, Vouched, Look, Timeline, Looking, Leq, AuthStep, KeyFileStep, Keeps;
    SecretsKeepStored(s);
    MoveKeepsStored(s, At(s, Idle));
    MoveKeepsStored(s, At(s, Setup(Auth)));
    MoveKeepsStored(s, At(s, Setup(KeyFile)));
    MoveKeepsStored(s, At(s, Setup(Certificates)));
    MoveKeepsStored(s, At(s, FirstNode(s)));
  }

  lemma NodesKeepsStored(s: State, reply: Reply)
    requires StoredInv(s) && s.worker.pc.Nodes?
    ensures Keeps(s, NodesStep(s, reply))
  {
    hide Good, Vouched, Look, Timeline, Looking;
    MoveKeepsStored(s, NodesStep(s, reply));
  }

  lemma ProvisionedKeepsStored(s: State, cs: seq<Condition>)
    requires StoredInv(s) && s.worker.pc.After?
    requires cs == SetCondition(Last(s.hist).conditions, Condition(PROVISIONED, StatusTrue, s.worker.obj.generation, BY_OPERATOR))
    ensures StoredInv(ProvisionedStep(s, cs)) && ProvisionedStep(s, cs).sharded == s.sharded
  {
    assert s.hist != [];
    hide Good, Vouched, Look, Timeline, Looking, WriteConditions, SetCondition, Leq, HasCondition;
    CurrentIsGood(s);
    ProvisionedIsGood(Current(s).conditions, s.worker.obj.generation, s.health);
    ConditionsSucceed(s, cs, s.health);
    StoredGrows(s, ProvisionedStep(s, cs));
  }

  lemma InitializeKeepsStored(s: State)
    requires StoredInv(s) && s.worker.pc == After(Initialize)
    ensures Keeps(s, InitializeStep(s))
  {
    assert s.hist != [];
    hide Good, Vouched, Look, Timeline, Looking, WriteSpec;
    if Current(s).spec.hasInit {
      var spec := Current(s).spec.(initialized := true);
      SpecWriteKeepsStored(s, spec, s.worker.(pc := Idle));
      SpecSucceeds(s, spec);
      MoveKeepsStored(WriteSpec(s, spec).(worker := s.worker.(pc := Idle)), InitializeStep(s));
    } else {
      MoveKeepsStored(s, InitializeStep(s));
    }
  }

  lemma AfterKeepsStored(s: State, reply: Reply)
    requires StoredInv(s) && s.worker.pc.After?
    ensures StoredInv(AfterStep(s, reply)) && AfterStep(s, reply).sharded == s.sharded
    ensures s.worker.pc != After(WriteProvisioned) ==> Keeps(s, AfterStep(s, reply))
  {
    assert s.hist != [];
    hide Good, Vouched, Look, Timeline, Looking, InitializeStep, ProvisionedStep, SetCondition, WaitsForRestore, IsProvisioned, ShowsReady;
    var w, s' := s.worker, AfterStep(s, reply);
    match w.pc.after {
      case Initialize =>
        InitializeKeepsStored(s);
        MoveKeepsStored(s, At(s, Idle));
      case WriteProvisioned =>
        ProvisionedKeepsStored(s, SetCondition(Current(s).conditions, Condition(PROVISIONED, StatusTrue, w.obj.generation, BY_OPERATOR)));
        MoveKeepsStored(s, At(s, Idle));
        MoveKeepsStored(s, At(s, After(Users)));
      case _ => MoveKeepsStored(s, s');
    }
  }

  lemma HealthKeepsStored(s: State, e: Event)
    requires StoredInv(s)
    ensures Keeps(s, HealthStep(s, e))
  {
    assert s.hist != [];
    hide Good, Vouched, Look, Timeline, SetCondition, BothFalse, WriteConditions, Linked, Leq;
    var now := Current(s).conditions;
    var s' := HealthStep(s, e);
    CurrentIsGood(s);
    SameSucceeds(s);
    assert Vouched(Resting, now) by { RestingIsVouched(now); }
    match e {
      case HealthFailed(i) =>
        if Checkable(s, i) {
          BothFalseIsGood(now, s.hist[i].generation, Resting);
          ConditionsSucceed(s, BothFalse(now, s.hist[i].generation), Resting);
        }
        StoredGrows(s, s');
      case HealthConnected(i) =>
        if Checkable(s, i) {
          AcceptingIsGood(now, s.hist[i].generation);
          ConditionsSucceed(s, SetCondition(now, Condition(ACCEPTING_CONNECTION, StatusTrue, s.hist[i].generation, BY_OPERATOR)),
                            Accepted(s.hist[i].generation));
        }
        StoredGrows(s, s');
      case HealthPinged =>
        if s.health.Accepted? {
          ReadyIsGood(now, s.health.generation);
          var cs := SetCondition(now, Condition(READY, StatusTrue, s.health.generation, BY_OPERATOR));
          RestingIsVouched(cs);
          ConditionsSucceed(s, cs, Resting);
        }
        StoredGrows(s, s');
      case _ => RestKeepsStored(s);
    }
  }

  lemma RestingIsVouched(cs: seq<Condition>)
    ensures Vouched(Resting, cs)
  {
  }

  lemma RestKeepsStored(s: State)
    requires StoredInv(s)
    ensures Keeps(s, s.(health := Resting))
  {
  }

  lemma OutsideKeepsStored(s: State, e: Event)
    requires StoredInv(s)
    ensures Keeps(s, OutsideStep(s, e))
  {
    assert s.hist != [];
    hide Good, Vouched, Look, Timeline, SetCondition, RemoveCondition, WriteConditions, WriteSpec, Linked, Looking, Leq;
    var now := Current(s).conditions;
    CurrentIsGood(s);
    SameSucceeds(s);
    match e {
      case Outside(c) =>
        if !OwnedByOperator(c.kind) {
          OthersAreGood(now, c, s.health);
          ConditionsSucceed(s, SetCondition(now, c), s.health);
        }
      case OutsideRemoved(kind) =>
        if !OwnedByOperator(kind) {
          OthersAreGood(now, Condition(kind, StatusTrue, 0, BY_OPERATOR), s.health);
          ConditionsSucceed(s, RemoveCondition(now, kind), s.health);
        }
      case Edit(spec) => SpecSucceeds(s, spec);
      case _ =>
    }
    StoredGrows(s, OutsideStep(s, e));
  }

  lemma ApplyKeepsStored(s: State, e: Event)
    requires StoredInv(s)
    ensures StoredInv(Apply(s, e)) && Apply(s, e).sharded == s.sharded
  {
    hide Timeline, Looking, Vouched, Begin, TopStep, SetupStep, NodesStep, AfterStep, HealthStep, OutsideStep;
    match e {
      case Act(reply) =>
        match s.worker.pc {
          case Idle => BeginKeepsStored(s, reply);
          case Top(_) => TopKeepsStored(s, reply);
          case Setup(_) => SetupKeepsStored(s, reply);
          case Nodes(_) => NodesKeepsStored(s, reply);
          case After(_) => AfterKeepsStored(s, reply);
        }
      case Crash => MoveKeepsStored(s, At(s, Idle));
      case HealthFailed(_) => HealthKeepsStored(s, e);
      case HealthConnected(_) => HealthKeepsStored(s, e);
      case HealthPinged => HealthKeepsStored(s, e);
      case HealthStopped => HealthKeepsStored(s, e);
      case _ => OutsideKeepsStored(s, e);
    }
  }

  lemma StartIsStored(sharded: bool, spec: Spec)
    ensures StoredInv(Start(sharded, spec))
  {
    var s := Start(sharded, spec);
    assert Look([], PROVISIONED) == None && Look([], ACCEPTING_CONNECTION) == None && Look([], READY) == None;
  }

  lemma {:induction false} RunKeepsStored(sharded: bool, spec: Spec, events: seq<Event>)
    ensures StoredInv(Run(Start(sharded, spec), events))
  {
    if events == [] {
      StartIsStored(sharded, spec);
    } else {
      RunKeepsStored(sharded, spec, Front(events));
      ApplyKeepsStored(Run(Start(sharded, spec), Front(events)), Last(events));
    }
  }

  /** Ready implies AcceptingConnection in every status any run ever stores, halts falling
      between the two writes of a health round included. */
  lemma ReadyImpliesAccepting(sharded: bool, spec: Spec, events: seq<Event>, v: Version)
    requires v in Run(Start(sharded, spec), events).hist
    ensures IsConditionTrue(v.conditions, READY) ==> IsConditionTrue(v.conditions, ACCEPTING_CONNECTION)
  {
    RunKeepsStored(sharded, spec, events);
    var hist := Run(Start(sharded, spec), events).hist;
    var i :| 0 <= i < |hist| && hist[i] == v;
    assert Good(v.conditions);
    LookTells(v.conditions, READY);
    LookTells(v.conditions, ACCEPTING_CONNECTION);
  }

  /** A halt decided on a generation its three conditions are not newer than shows in the status:
      halted, and neither accepting connections nor ready. */
  lemma HaltShows(cs: seq<Condition>, generation: nat)
    requires Good(cs)
    requires forall kind | kind in {HALTED, ACCEPTING_CONNECTION, READY} ::
               Look(cs, kind).Some? ==> Look(cs, kind).value.observedGeneration <= generation
    ensures var r := HaltedConditions(cs, generation);
            && IsConditionTrue(r, HALTED)
            && !IsConditionTrue(r, ACCEPTING_CONNECTION) && HasCondition(r, ACCEPTING_CONNECTION)
            && !IsConditionTrue(r, READY) && HasCondition(r, READY)
            && (HasCondition(r, PROVISIONED) <==> HasCondition(cs, PROVISIONED))
  {
    hide Look, SetCondition, IsConditionTrue, HasCondition;
    var h := Condition(HALTED, StatusTrue, generation, BY_OPERATOR);
    var a := Condition(ACCEPTING_CONNECTION, StatusFalse, generation, BY_OPERATOR);
    var r := Condition(READY, StatusFalse, generation, BY_OPERATOR);
    var one := SetCondition(cs, h);
    var two := SetCondition(one, a);
    var three := SetCondition(two, r);
    forall kind | kind in {HALTED, ACCEPTING_CONNECTION, READY, PROVISIONED}
      ensures Look(three, kind) ==
                if kind == READY then Some(r) else if kind == ACCEPTING_CONNECTION then Some(a)
                else if kind == HALTED then Some(h) else Look(cs, kind)
    {
      LookSet(cs, h, kind);
      LookSet(one, a, kind);
      LookSet(two, r, kind);
    }
    LookSet(cs, h, 0);
    LookSet(one, a, 0);
    LookSet(two, r, 0);
    LookTells(three, HALTED);
    LookTells(three, ACCEPTING_CONNECTION);
    LookTells(three, READY);
    LookTells(three, PROVISIONED);
    LookTells(cs, PROVISIONED);
  }

  /* ---------- who may halt ---------- */

  /** What a worker step does to the StatefulSets, or to whether the status says halted, that only a
      halt may do. */
  ghost predicate HaltsIn(s: State, t: State) {
    && s.hist != [] && t.hist != []
    && (!(s.nodes <= t.nodes)
        || (IsConditionTrue(Current(t).conditions, HALTED) && !IsConditionTrue(Current(s).conditions, HALTED)))
  }

  lemma StatusOf(s: State, cs: seq<Condition>)
    requires s.hist != []
    ensures WriteConditions(s, cs).hist != [] && Current(WriteConditions(s, cs)).conditions == cs
    ensures WriteConditions(s, cs).nodes == s.nodes
  {
  }

  lemma DecidingDoesNotHalt(s: State, phase: Phase)
    requires StoredInv(s) && s.worker.pc == Top(Decide)
    ensures !HaltsIn(s, DecideStep(s, phase))
  {
    CurrentIsGood(s);
    hide StoredInv, Good, SetCondition, RemoveCondition, WriteConditions;
    var now := Current(s).conditions;
    var c := Condition(PROVISIONING_STARTED, StatusTrue, 0, BY_OPERATOR);
    StatusOf(s, SetCondition(now, c));
    StatusOf(s, RemoveCondition(now, HALTED));
    SetFramesOtherKinds(now, c, HALTED);
    RemovalDoesNotHalt(now);
    hide IsConditionTrue, HasCondition;
  }

  lemma RemovalDoesNotHalt(cs: seq<Condition>)
    requires Good(cs)
    ensures !IsConditionTrue(RemoveCondition(cs, HALTED), HALTED)
  {
    RemoveKeepsUniqueKinds(cs, HALTED);
  }

  lemma AfterDoesNotHalt(s: State, reply: Reply)
    requires s.hist != [] && s.worker.pc.After?
    ensures !HaltsIn(s, AfterStep(s, reply))
  {
    hide SetCondition, IsConditionTrue, HasCondition, WriteConditions;
    var c := Condition(PROVISIONED, StatusTrue, s.worker.obj.generation, BY_OPERATOR);
    SetFramesOtherKinds(Current(s).conditions, c, HALTED);
    StatusOf(s, SetCondition(Current(s).conditions, c));
  }

  lemma OthersDoNotHalt(s: State, reply: Reply)
    requires s.hist != [] && (s.worker.pc.Setup? || s.worker.pc.Nodes? || s.worker.pc == Idle || s.worker.pc == Top(Finalize))
    ensures !HaltsIn(s, Step(s, reply))
  {
    hide IsConditionTrue, HasCondition, SetCondition, RemoveCondition, HaltedConditions;
  }

  /** In every run: a worker step takes a StatefulSet away, or makes the status say halted, only on a
      stored version that asks for a halt and whose termination policy allows it. */
  lemma HaltIsAllowed(sharded: bool, spec: Spec, events: seq<Event>, reply: Reply, s: State, t: State)
    requires s == Run(Start(sharded, spec), events) && t == Apply(s, Act(reply)) && HaltsIn(s, t)
    ensures s.worker.base < |s.hist| && s.hist[s.worker.base].spec.halted && s.hist[s.worker.base].spec.mayHalt
  {
    RunKeepsStored(sharded, spec, events);
    assert s.hist != [];
    hide HaltsIn, DecideStep, SetupStep, NodesStep, AfterStep, HaltedConditions, Timeline, Looking, Vouched, WriteConditions, Append;
    match s.worker.pc {
      case Top(Decide) =>
        if reply.PhaseIs? {
          DecidingDoesNotHalt(s, reply.phase);
        } else {
          MovingDoesNotHalt(s, Idle);
        }
      case Top(Finalize) => OthersDoNotHalt(s, reply);
      case Top(_) =>
      case After(_) => AfterDoesNotHalt(s, reply);
      case _ => OthersDoNotHalt(s, reply);
    }
  }

  lemma MovingDoesNotHalt(s: State, pc: Pc)
    ensures !HaltsIn(s, At(s, pc))
  {
  }
}
