/** The status condition lists both controllers keep, with the list helpers they call.
    Nothing ever reads a transition time or a message, so neither is part of the model. */
module Conditions {

  datatype Status = StatusTrue | StatusFalse | StatusUnknown

  /** Condition types, numbered: each controller names the ones it writes or reads. */
  type Kind = nat

  datatype Reason = Coded(code: nat) | ErrorText(text: string)

  datatype Condition = Condition(kind: Kind, status: Status, observedGeneration: int, reason: Reason)

  predicate HasCondition(cs: seq<Condition>, kind: Kind) {
    exists i | 0 <= i < |cs| :: cs[i].kind == kind
  }

  predicate IsConditionTrue(cs: seq<Condition>, kind: Kind) {
    exists i | 0 <= i < |cs| :: cs[i].kind == kind && cs[i].status == StatusTrue
  }

  /** Position of the first condition of a kind at or after `from`, or -1. */
  function IndexFrom(cs: seq<Condition>, kind: Kind, from: nat): (i: int)
    requires from <= |cs|
    ensures i == -1 || from <= i < |cs|
    ensures i != -1 ==> cs[i].kind == kind && forall j | from <= j < i :: cs[j].kind != kind
    ensures i == -1 ==> forall j | from <= j < |cs| :: cs[j].kind != kind
    decreases |cs| - from
  {
    if from == |cs| then -1
    else if cs[from].kind == kind then from
    else IndexFrom(cs, kind, from + 1)
  }

  function GetCondition(cs: seq<Condition>, kind: Kind): (i: int)
    ensures -1 <= i < |cs|
    ensures i != -1 ==> cs[i].kind == kind && forall j | 0 <= j < i :: cs[j].kind != kind
    ensures i == -1 <==> !HasCondition(cs, kind)
  {
    IndexFrom(cs, kind, 0)
  }

  /** Add the condition, or replace the first one of its kind unless that one was
      observed at a later generation. */
  function SetCondition(cs: seq<Condition>, c: Condition): (r: seq<Condition>)
    ensures |r| == |cs| + if HasCondition(cs, c.kind) then 0 else 1
  {
    var i := GetCondition(cs, c.kind);
    if i == -1 then cs + [c]
    else if cs[i].observedGeneration <= c.observedGeneration then cs[i := c]
    else cs
  }

  /** Remove the first condition of a kind. */
  function RemoveCondition(cs: seq<Condition>, kind: Kind): (r: seq<Condition>)
    ensures |r| <= |cs|
    ensures HasCondition(cs, kind) ==> |r| == |cs| - 1
    ensures !HasCondition(cs, kind) ==> r == cs
  {
    var i := GetCondition(cs, kind);
    if i == -1 then cs else cs[..i] + cs[i + 1..]
  }

  ghost predicate UniqueKinds(cs: seq<Condition>) {
    forall i, j | 0 <= i < j < |cs| :: cs[i].kind != cs[j].kind
  }

  lemma SetKeepsUniqueKinds(cs: seq<Condition>, c: Condition)
    requires UniqueKinds(cs)
    ensures UniqueKinds(SetCondition(cs, c))
  {
  }

  lemma RemoveKeepsUniqueKinds(cs: seq<Condition>, kind: Kind)
    requires UniqueKinds(cs)
    ensures UniqueKinds(RemoveCondition(cs, kind))
    ensures !HasCondition(RemoveCondition(cs, kind), kind)
  {
  }

  /** A write that is not older than the stored condition takes effect. */
  lemma SetInstalls(cs: seq<Condition>, c: Condition)
    requires var i := GetCondition(cs, c.kind);
             i != -1 ==> cs[i].observedGeneration <= c.observedGeneration
    ensures var i := GetCondition(SetCondition(cs, c), c.kind);
            i != -1 && SetCondition(cs, c)[i] == c
  {
    var i := GetCondition(cs, c.kind);
    var r := SetCondition(cs, c);
    assert r[if i == -1 then |cs| else i] == c;
    assert forall j | 0 <= j < if i == -1 then |cs| else i :: r[j] == cs[j];
  }

  /** Setting one kind leaves what is known about every other kind alone. */
  lemma SetFramesOtherKinds(cs: seq<Condition>, c: Condition, kind: Kind)
    requires kind != c.kind
    ensures IsConditionTrue(SetCondition(cs, c), kind) <==> IsConditionTrue(cs, kind)
    ensures HasCondition(SetCondition(cs, c), kind) <==> HasCondition(cs, kind)
    ensures GetCondition(SetCondition(cs, c), kind) == GetCondition(cs, kind)
    ensures GetCondition(cs, kind) != -1 ==>
              SetCondition(cs, c)[GetCondition(cs, kind)] == cs[GetCondition(cs, kind)]
  {
    var i := GetCondition(cs, c.kind);
    var r := SetCondition(cs, c);
    if i == -1 {
      assert forall j | 0 <= j < |cs| :: r[j] == cs[j];
    } else {
      assert forall j | 0 <= j < |cs| && j != i :: r[j] == cs[j];
    }
    var g := GetCondition(cs, kind);
    var h := GetCondition(r, kind);
    if g != -1 {
      assert r[g] == cs[g];
    }
    assert g == h;
    if IsConditionTrue(cs, kind) {
      var j :| 0 <= j < |cs| && cs[j].kind == kind && cs[j].status == StatusTrue;
      assert r[j] == cs[j];
    }
    if IsConditionTrue(r, kind) {
      var j :| 0 <= j < |r| && r[j].kind == kind && r[j].status == StatusTrue;
      assert j < |cs| && r[j] == cs[j];
    }
  }

  lemma RemovedContent(cs: seq<Condition>, gone: Kind)
    ensures var i := GetCondition(cs, gone);
            var r := RemoveCondition(cs, gone);
            if i == -1 then r == cs
            else |r| == |cs| - 1
                 && (forall j | 0 <= j < i :: r[j] == cs[j])
                 && (forall j | i < j < |cs| :: r[j - 1] == cs[j])
  {
  }

  lemma RemoveFramesOtherKinds(cs: seq<Condition>, gone: Kind, kind: Kind)
    requires kind != gone
    ensures IsConditionTrue(RemoveCondition(cs, gone), kind) <==> IsConditionTrue(cs, kind)
    ensures HasCondition(RemoveCondition(cs, gone), kind) <==> HasCondition(cs, kind)
  {
    hide GetCondition, RemoveCondition;
    RemovedContent(cs, gone);
    var i := GetCondition(cs, gone);
    var r := RemoveCondition(cs, gone);
    if i != -1 {
      if HasCondition(cs, kind) {
        var j :| 0 <= j < |cs| && cs[j].kind == kind;
        assert r[if j < i then j else j - 1] == cs[j];
      }
      if IsConditionTrue(cs, kind) {
        var j :| 0 <= j < |cs| && cs[j].kind == kind && cs[j].status == StatusTrue;
        assert r[if j < i then j else j - 1] == cs[j];
      }
      if HasCondition(r, kind) {
        var j :| 0 <= j < |r| && r[j].kind == kind;
        assert r[j] == cs[if j < i then j else j + 1];
      }
      if IsConditionTrue(r, kind) {
        var j :| 0 <= j < |r| && r[j].kind == kind && r[j].status == StatusTrue;
        assert r[j] == cs[if j < i then j else j + 1];
      }
    }
  }

  /** Writing StatusTrue never makes a condition false, whatever the generations say. */
  lemma SetTrueIsMonotone(cs: seq<Condition>, c: Condition, kind: Kind)
    requires c.status == StatusTrue
    ensures IsConditionTrue(cs, kind) ==> IsConditionTrue(SetCondition(cs, c), kind)
  {
    if kind != c.kind {
      SetFramesOtherKinds(cs, c, kind);
    } else if IsConditionTrue(cs, kind) {
      var i := GetCondition(cs, kind);
      var j :| 0 <= j < |cs| && cs[j].kind == kind && cs[j].status == StatusTrue;
      var r := SetCondition(cs, c);
      assert r[i].kind == kind && r[j].kind == kind;
      assert r[j].status == StatusTrue;
    }
  }
}
