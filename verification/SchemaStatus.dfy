/** Status bookkeeping of a MongoDBDatabase resource: how its condition list grows, what the
    per-condition generation counts, and which phase is read off the list. */
module SchemaStatus {
  import opened Common
  import opened Conditions

  const DATABASE_READY: Kind := 1
  const VAULT_READY: Kind := 2
  const SECRET_ENGINE_READY: Kind := 3
  const ROLE_READY: Kind := 4
  const ACCESS_REQUEST_READY: Kind := 5
  const JOB_COMPLETED: Kind := 6
  const REPOSITORY_FOUND: Kind := 7
  const APPBINDING_FOUND: Kind := 8
  const RESTORE_SESSION: Kind := 9

  const RESTORE_SUCCEEDED_REASON := Coded(9)
  const RESTORE_FAILED_REASON := Coded(10)

  /* ---------- SetCondition and its generation counter ---------- */

  /** The generation the next write of a kind carries: the stored one, plus one on a status
      flip. Later entries of the list win, and a kind seen for the first time starts at 1. */
  function NextGeneration(cs: seq<Condition>, kind: Kind, status: Status): int {
    if cs == [] then 1
    else
      var c := Last(cs);
      if c.kind == kind then
        if c.status != status then c.observedGeneration + 1 else c.observedGeneration
      else NextGeneration(Front(cs), kind, status)
  }

  function Recorded(cs: seq<Condition>, kind: Kind, status: Status, reason: Reason): seq<Condition> {
    SetCondition(cs, Condition(kind, status, NextGeneration(cs, kind, status), reason))
  }

  class DatabaseStatus {
    var conditions: seq<Condition>

    constructor ()
      ensures conditions == []
    {
      conditions := [];
    }

    /** Scan for the generation to use, then assign the list with the condition set. */
    method Record(kind: Kind, status: Status, reason: Reason) returns (r: seq<Condition>)
      modifies this
      ensures conditions == Recorded(old(conditions), kind, status, reason)
      ensures r == conditions
    {
      var gen := 1;
      for i := 0 to |conditions|
        invariant conditions == old(conditions)
        invariant gen == NextGeneration(conditions[..i], kind, status)
      {
        var c := conditions[i];
        assert Front(conditions[..i + 1]) == conditions[..i];
        if c.kind == kind {
          gen := c.observedGeneration;
          if c.status != status {
            gen := gen + 1;
          }
        }
      }
      assert conditions[..|conditions|] == conditions;
      conditions := SetCondition(conditions, Condition(kind, status, gen, reason));
      r := conditions;
    }
  }

  lemma {:induction false} NextGenerationIsLocal(cs: seq<Condition>, kind: Kind, status: Status)
    requires UniqueKinds(cs)
    ensures var i := GetCondition(cs, kind);
            NextGeneration(cs, kind, status) ==
              if i == -1 then 1
              else if cs[i].status != status then cs[i].observedGeneration + 1
              else cs[i].observedGeneration
  {
    if cs != [] && Last(cs).kind != kind {
      NextGenerationIsLocal(Front(cs), kind, status);
      assert GetCondition(Front(cs), kind) == GetCondition(cs, kind);
    }
  }

  /* ---------- the history of a condition list ---------- */

  /** One call of SetCondition. */
  datatype Call = Call(kind: Kind, status: Status, reason: Reason)

  /** The list left by a sequence of calls on an empty one. */
  function Replay(calls: seq<Call>): seq<Condition> {
    if calls == [] then []
    else
      var c := Last(calls);
      Recorded(Replay(Front(calls)), c.kind, c.status, c.reason)
  }

  /** The calls of one kind, in order. */
  function CallsOf(calls: seq<Call>, kind: Kind): seq<Call> {
    if calls == [] then []
    else CallsOf(Front(calls), kind) + (if Last(calls).kind == kind then [Last(calls)] else [])
  }

  /** How often consecutive calls disagree on the status. */
  function Flips(calls: seq<Call>): nat {
    if |calls| < 2 then 0
    else Flips(Front(calls)) + (if Last(calls).status != Last(Front(calls)).status then 1 else 0)
  }

  /** What the list holds for a kind after some calls: nothing before the first call of that
      kind, afterwards the last call's content with a generation of one plus the flips. */
  ghost predicate HistoryOf(cs: seq<Condition>, kind: Kind, calls: seq<Call>) {
    var mine := CallsOf(calls, kind);
    var i := GetCondition(cs, kind);
    && (i == -1 <==> mine == [])
    && (mine != [] ==>
          cs[i] == Condition(kind, Last(mine).status, 1 + Flips(mine), Last(mine).reason))
  }

  lemma {:induction false} ConditionHistory(calls: seq<Call>)
    ensures UniqueKinds(Replay(calls))
    ensures forall kind :: HistoryOf(Replay(calls), kind, calls)
  {
    if calls != [] {
      var before := Replay(Front(calls));
      var c := Last(calls);
      ConditionHistory(Front(calls));
      var written := Condition(c.kind, c.status, NextGeneration(before, c.kind, c.status), c.reason);
      SetKeepsUniqueKinds(before, written);
      assert Replay(calls) == SetCondition(before, written);
      forall kind
        ensures HistoryOf(Replay(calls), kind, calls)
      {
        assert HistoryOf(before, kind, Front(calls));
        if kind == c.kind {
          NextGenerationIsLocal(before, kind, c.status);
          SetInstalls(before, written);
          assert Front(CallsOf(calls, kind)) == CallsOf(Front(calls), kind);
        } else {
          SetFramesOtherKinds(before, written, kind);
          assert CallsOf(calls, kind) == CallsOf(Front(calls), kind);
        }
      }
    }
  }

  lemma {:induction false} FlipParity(calls: seq<Call>)
    requires calls != []
    requires forall c <- calls :: c.status != StatusUnknown
    ensures Last(calls).status == calls[0].status <==> Flips(calls) % 2 == 0
  {
    if |calls| > 1 {
      FlipParity(Front(calls));
    }
  }

  /** With only true and false written, an odd generation says "as first set". */
  lemma GenerationParity(calls: seq<Call>, kind: Kind, mine: seq<Call>, i: int)
    requires mine == CallsOf(calls, kind) && mine != []
    requires forall c <- mine :: c.status != StatusUnknown
    requires i == GetCondition(Replay(calls), kind)
    ensures i != -1
    ensures Replay(calls)[i].status == mine[0].status <==> Replay(calls)[i].observedGeneration % 2 == 1
  {
    ConditionHistory(calls);
    assert HistoryOf(Replay(calls), kind, calls);
    FlipParity(mine);
  }

  /* ---------- the phase ---------- */

  datatype Phase = Waiting | Processing | Running | Ignored | Succeeded | Failed

  /** Scan for the first restore condition whose reason decides. */
  function RestoreVerdict(cs: seq<Condition>): Phase {
    if cs == [] then Succeeded
    else if cs[0].kind == RESTORE_SESSION && cs[0].reason == RESTORE_FAILED_REASON then Failed
    else if cs[0].kind == RESTORE_SESSION && cs[0].reason == RESTORE_SUCCEEDED_REASON then Succeeded
    else RestoreVerdict(cs[1..])
  }

  function GetPhaseFromCondition(cs: seq<Condition>, toRestore: bool): Phase {
    if !IsConditionTrue(cs, VAULT_READY) || !IsConditionTrue(cs, DATABASE_READY) then Waiting
    else if !IsConditionTrue(cs, SECRET_ENGINE_READY) || !IsConditionTrue(cs, ROLE_READY)
            || !IsConditionTrue(cs, ACCESS_REQUEST_READY) then Processing
    else if toRestore && (!IsConditionTrue(cs, REPOSITORY_FOUND) || !IsConditionTrue(cs, APPBINDING_FOUND)
                          || !IsConditionTrue(cs, RESTORE_SESSION)) then Running
    else if !toRestore && HasCondition(cs, JOB_COMPLETED) && !IsConditionTrue(cs, JOB_COMPLETED) then Running
    else RestoreVerdict(cs)
  }

  /** The five conditions without which a resource is still waiting or processing. */
  predicate FiveReady(cs: seq<Condition>) {
    && IsConditionTrue(cs, VAULT_READY)
    && IsConditionTrue(cs, DATABASE_READY)
    && IsConditionTrue(cs, SECRET_ENGINE_READY)
    && IsConditionTrue(cs, ROLE_READY)
    && IsConditionTrue(cs, ACCESS_REQUEST_READY)
  }

  predicate RestoreReady(cs: seq<Condition>) {
    && IsConditionTrue(cs, REPOSITORY_FOUND)
    && IsConditionTrue(cs, APPBINDING_FOUND)
    && IsConditionTrue(cs, RESTORE_SESSION)
  }

  predicate FailedRestoreIn(cs: seq<Condition>) {
    exists c <- cs :: c.kind == RESTORE_SESSION && c.reason == RESTORE_FAILED_REASON
  }

  lemma {:induction false} VerdictIsMembership(cs: seq<Condition>)
    requires UniqueKinds(cs)
    ensures RestoreVerdict(cs) == if FailedRestoreIn(cs) then Failed else Succeeded
  {
    if cs != [] {
      forall i, j | 0 <= i < j < |cs[1..]|
        ensures cs[1..][i].kind != cs[1..][j].kind
      {
        assert cs[1..][i] == cs[i + 1] && cs[1..][j] == cs[j + 1];
      }
      VerdictIsMembership(cs[1..]);
      assert cs == [cs[0]] + cs[1..];
      assert FailedRestoreIn(cs[1..]) ==> FailedRestoreIn(cs);
    }
  }

  lemma TruthIsMembership(cs: seq<Condition>, kind: Kind)
    ensures IsConditionTrue(cs, kind) <==> exists c <- cs :: c.kind == kind && c.status == StatusTrue
    ensures HasCondition(cs, kind) <==> exists c <- cs :: c.kind == kind
  {
  }

  /** Only which conditions are in the list matters, not where they stand. */
  lemma PhaseIgnoresOrder(cs: seq<Condition>, ds: seq<Condition>, toRestore: bool)
    requires UniqueKinds(cs) && UniqueKinds(ds)
    requires forall c :: c in cs <==> c in ds
    ensures GetPhaseFromCondition(cs, toRestore) == GetPhaseFromCondition(ds, toRestore)
  {
    forall kind
      ensures IsConditionTrue(cs, kind) <==> IsConditionTrue(ds, kind)
      ensures HasCondition(cs, kind) <==> HasCondition(ds, kind)
    {
      TruthIsMembership(cs, kind);
      TruthIsMembership(ds, kind);
    }
    VerdictIsMembership(cs);
    VerdictIsMembership(ds);
  }

  function Rank(p: Phase): nat {
    match p
    case Waiting => 0
    case Processing => 1
    case Running => 2
    case _ => 3
  }

  lemma {:induction false} VerdictIsFinal(cs: seq<Condition>)
    ensures RestoreVerdict(cs) == Succeeded || RestoreVerdict(cs) == Failed
  {
    if cs != [] {
      VerdictIsFinal(cs[1..]);
    }
  }

  /** Progress: setting any condition to true never moves the phase back. */
  lemma TrueNeverLowersRank(cs: seq<Condition>, kind: Kind, reason: Reason, toRestore: bool)
    ensures Rank(GetPhaseFromCondition(cs, toRestore)) <=
            Rank(GetPhaseFromCondition(Recorded(cs, kind, StatusTrue, reason), toRestore))
  {
    var c := Condition(kind, StatusTrue, NextGeneration(cs, kind, StatusTrue), reason);
    var r := SetCondition(cs, c);
    forall k
      ensures IsConditionTrue(cs, k) ==> IsConditionTrue(r, k)
    {
      SetTrueIsMonotone(cs, c, k);
    }
    if HasCondition(r, JOB_COMPLETED) && !IsConditionTrue(r, JOB_COMPLETED) {
      if kind != JOB_COMPLETED {
        SetFramesOtherKinds(cs, c, JOB_COMPLETED);
      }
    }
    VerdictIsFinal(cs);
    VerdictIsFinal(r);
  }

  /** Each rung of the ladder is reached exactly when its conditions hold. */
  lemma PhaseThresholds(cs: seq<Condition>, toRestore: bool)
    ensures var rank := Rank(GetPhaseFromCondition(cs, toRestore));
            && (rank >= 1 <==> IsConditionTrue(cs, VAULT_READY) && IsConditionTrue(cs, DATABASE_READY))
            && (rank >= 2 <==> FiveReady(cs))
            && (toRestore ==> (rank == 3 <==> FiveReady(cs) && RestoreReady(cs)))
    ensures GetPhaseFromCondition(cs, toRestore) != Ignored
  {
    VerdictIsFinal(cs);
  }

  /** Failed in restore mode, exactly: all eight conditions true, and the restore failed. */
  lemma FailedExactlyWhenRestoreFailed(cs: seq<Condition>)
    requires UniqueKinds(cs)
    ensures GetPhaseFromCondition(cs, true) == Failed <==>
              FiveReady(cs) && RestoreReady(cs) && FailedRestoreIn(cs)
    ensures GetPhaseFromCondition(cs, true) == Succeeded <==>
              FiveReady(cs) && RestoreReady(cs) && !FailedRestoreIn(cs)
  {
    VerdictIsMembership(cs);
  }

  /** Outside restore mode a final phase needs the init job done, once the job was looked at. */
  lemma FinalPhaseNeedsTheJob(cs: seq<Condition>)
    ensures (GetPhaseFromCondition(cs, false) == Succeeded || GetPhaseFromCondition(cs, false) == Failed) <==>
              FiveReady(cs) && (HasCondition(cs, JOB_COMPLETED) ==> IsConditionTrue(cs, JOB_COMPLETED))
  {
    VerdictIsFinal(cs);
  }
}
