/** The shard loop works on one pod template shared by all iterations: each overwrites its lifecycle
    hook through a pointer, then deep-copies it and resolves the affinity template in the copy.
    Still every shard's StatefulSet gets its own hook and its own affinity. */
module ShardLoop {
  import opened Common

  /* ---------- names ---------- */

  function Digit(d: nat): char
    requires d < 10
  {
    '0' + d as char
  }

  function Itoa(n: nat): (s: string)
    ensures s != []
  {
    if n < 10 then [Digit(n)] else Itoa(n / 10) + [Digit(n % 10)]
  }

  lemma {:induction false} ItoaIsInjective(m: nat, n: nat)
    requires Itoa(m) == Itoa(n)
    ensures m == n
  {
    assert Last(Itoa(m)) == Digit(m % 10) && Last(Itoa(n)) == Digit(n % 10);
    assert m % 10 == n % 10;
    if m >= 10 && n >= 10 {
      assert Front(Itoa(m)) == Itoa(m / 10) && Front(Itoa(n)) == Itoa(n / 10);
      ItoaIsInjective(m / 10, n / 10);
    }
  }

  function ShardNodeName(common: string, node: nat): string {
    common + Itoa(node)
  }

  function GoverningServiceName(name: string): string {
    name + "-pods"
  }

  /** The postStart command of a shard. */
  function Hook(common: string, node: nat): string {
    "/init-scripts/peer-finder -on-start=/init-scripts/sharding.sh -service=" + GoverningServiceName(ShardNodeName(common, node))
  }

  lemma NodeNameIsInjective(common: string, m: nat, n: nat)
    requires ShardNodeName(common, m) == ShardNodeName(common, n)
    ensures m == n
  {
    assert Itoa(m) == ShardNodeName(common, m)[|common|..] == ShardNodeName(common, n)[|common|..] == Itoa(n);
    ItoaIsInjective(m, n);
  }

  lemma HookIsInjective(common: string, m: nat, n: nat)
    requires Hook(common, m) == Hook(common, n)
    ensures m == n
  {
    var prefix := "/init-scripts/peer-finder -on-start=/init-scripts/sharding.sh -service=";
    var a, b := GoverningServiceName(ShardNodeName(common, m)), GoverningServiceName(ShardNodeName(common, n));
    assert a == Hook(common, m)[|prefix|..] == Hook(common, n)[|prefix|..] == b;
    assert ShardNodeName(common, m) == a[..|a| - 5] == b[..|b| - 5] == ShardNodeName(common, n);
    NodeNameIsInjective(common, m, n);
  }

  /* ---------- texts with variables ---------- */

  /** A piece of text, or a variable reference; text never contains a dollar sign. */
  datatype Piece = Text(text: string) | Var(name: string)

  const SHARD_INDEX := "SHARD_INDEX"

  /** What envsubst makes of variables it is not given; None is an error. */
  type Others = string -> Option<string>

  function Value(name: string, node: nat, others: Others): Option<string> {
    if name == SHARD_INDEX then Some(Itoa(node)) else others(name)
  }

  function Resolve(text: seq<Piece>, node: nat, others: Others): Option<seq<Piece>> {
    if text == [] then Some([])
    else
      var front := Resolve(Front(text), node, others);
      var p := Last(text);
      if front.None? then None
      else if p.Text? then Some(front.value + [p])
      else
        var v := Value(p.name, node, others);
        if v.None? then None else Some(front.value + [Text(v.value)])
  }

  /** Piece by piece: text stays, the index is written out, every other variable has the value it is
      given; without a value for some variable nothing comes out. */
  lemma {:induction false} ResolvesPieceByPiece(text: seq<Piece>, node: nat, others: Others)
    ensures var r := Resolve(text, node, others);
            && (r.Some? <==> forall p <- text | p.Var? && p.name != "SHARD_INDEX" :: others(p.name).Some?)
            && (r.Some? ==>
                  && |r.value| == |text|
                  && forall i | 0 <= i < |text| :: r.value[i] == match text[i]
                                                                 case Text(_) => text[i]
                                                                 case Var(name) => Text(if name == "SHARD_INDEX" then Itoa(node) else others(name).value))
  {
    if text != [] {
      ResolvesPieceByPiece(Front(text), node, others);
      assert forall p :: p in text <==> p in Front(text) || p == Last(text);
    }
  }

  /** Plain text stays as it is. */
  lemma PlainStays(text: string, node: nat, others: Others)
    ensures Resolve([Text(text)], node, others) == Some([Text(text)])
  {
    assert Front([Text(text)]) == [] && Last([Text(text)]) == Text(text);
    assert Resolve([], node, others) == Some([]);
    assert [] + [Text(text)] == [Text(text)];
  }

  function Flat(text: seq<Piece>): string {
    if text == [] then [] else Flat(Front(text)) + (if Last(text).Text? then Last(text).text else "$" + Last(text).name)
  }

  /** The template a default affinity selects its pods by resolves, for shard k, to shard k's name. */
  lemma DefaultAffinityNamesTheShard(common: string, node: nat, others: Others)
    ensures var r := Resolve([Text(common), Var(SHARD_INDEX)], node, others);
            r.Some? && Flat(r.value) == ShardNodeName(common, node)
  {
    var t := [Text(common), Var(SHARD_INDEX)];
    assert Front(t) == [Text(common)] && Last(t) == Var(SHARD_INDEX);
    PlainStays(common, node, others);
    var r := Resolve(t, node, others).value;
    assert r == [Text(common), Text(Itoa(node))];
    assert Front(r) == [Text(common)] && Front([Text(common)]) == [];
    assert Flat([]) == [] && Flat([Text(common)]) == [] + common == common;
  }

  /* ---------- pod templates ---------- */

  /** The contents of a pod template: the hook, the affinity, and everything else. */
  datatype Template = Template(hook: seq<Piece>, affinity: Option<seq<Piece>>, rest: seq<Piece>)

  class PodTemplate {
    var hook: seq<Piece>
    var affinity: Option<seq<Piece>>
    var rest: seq<Piece>

    constructor (t: Template)
      ensures Contents() == t
    {
      hook, affinity, rest := t.hook, t.affinity, t.rest;
    }

    function Contents(): Template
      reads this
    {
      Template(hook, affinity, rest)
    }

    method DeepCopy() returns (copy: PodTemplate)
      ensures fresh(copy) && copy.Contents() == Contents()
    {
      copy := new PodTemplate(Template(hook, affinity, rest));
    }
  }

  /** With an affinity the whole template goes through the substitution, not just the affinity. */
  function Resolved(t: Template, node: nat, others: Others): Option<Template> {
    if t.affinity.None? then Some(t)
    else
      var h, a, r := Resolve(t.hook, node, others), Resolve(t.affinity.value, node, others), Resolve(t.rest, node, others);
      if h.None? || a.None? || r.None? then None else Some(Template(h.value, Some(a.value), r.value))
  }

  method ParseAffinityTemplate(podTemplate: PodTemplate, node: nat, others: Others) returns (ok: bool)
    modifies podTemplate
    ensures ok <==> Resolved(old(podTemplate.Contents()), node, others).Some?
    ensures podTemplate.Contents() ==
              if ok then Resolved(old(podTemplate.Contents()), node, others).value else old(podTemplate.Contents())
  {
    if podTemplate.affinity.None? {
      return true;
    }
    var h := Resolve(podTemplate.hook, node, others);
    var a := Resolve(podTemplate.affinity.value, node, others);
    var r := Resolve(podTemplate.rest, node, others);
    ok := h.Some? && a.Some? && r.Some?;
    if ok {
      podTemplate.hook, podTemplate.affinity, podTemplate.rest := h.value, Some(a.value), r.value;
    }
  }

  /** What shard k's StatefulSet is to be built from, given the user's template. */
  function Intended(common: string, t: Template, node: nat, others: Others): Option<Template> {
    Resolved(t.(hook := [Text(Hook(common, node))]), node, others)
  }

  /** The loop. Each StatefulSet is built from its own copy; of the shared template only the hook
      changes, to the last one written. An error ends the loop, with the shards before it done. */
  method EnsureShardNode(podTemplate: PodTemplate, shards: nat, common: string, others: Others)
      returns (ok: bool, built: seq<Template>)
    modifies podTemplate
    ensures ok ==> |built| == shards
    ensures forall k: nat | k < |built| :: Intended(common, old(podTemplate.Contents()), k, others) == Some(built[k])
    ensures !ok ==> |built| < shards && Intended(common, old(podTemplate.Contents()), |built|, others).None?
    ensures podTemplate.affinity == old(podTemplate.affinity) && podTemplate.rest == old(podTemplate.rest)
    ensures podTemplate.hook ==
              if shards == 0 then old(podTemplate.hook) else [Text(Hook(common, if ok then shards - 1 else |built|))]
  {
    ghost var t := podTemplate.Contents();
    built := [];
    for node := 0 to shards
      invariant |built| == node
      invariant forall k: nat | k < node :: Intended(common, t, k, others) == Some(built[k])
      invariant podTemplate.affinity == t.affinity && podTemplate.rest == t.rest
      invariant podTemplate.hook == if node == 0 then t.hook else [Text(Hook(common, node - 1))]
    {
      podTemplate.hook := [Text(Hook(common, node))];
      var copy := podTemplate.DeepCopy();
      var resolved := ParseAffinityTemplate(copy, node, others);
      if !resolved {
        return false, built;
      }
      built := built + [Template(copy.hook, copy.affinity, copy.rest)];
    }
    ok := true;
  }

  /** No leakage: shard k's StatefulSet runs shard k's hook, and no other shard's; its affinity is
      the user's with index k. */
  lemma NoLeakage(common: string, t: Template, k: nat, j: nat, others: Others)
    requires Intended(common, t, k, others).Some?
    ensures var built := Intended(common, t, k, others).value;
            && built.hook == [Text(Hook(common, k))]
            && (j != k ==> built.hook != [Text(Hook(common, j))])
            && (t.affinity.Some? ==> built.affinity.Some? && Resolve(t.affinity.value, k, others) == built.affinity)
            && (t.affinity.Some? ==> Resolve(t.rest, k, others) == Some(built.rest))
            && (t.affinity.None? ==> built == t.(hook := built.hook))
  {
    PlainStays(Hook(common, k), k, others);
    if Hook(common, j) == Hook(common, k) {
      HookIsInjective(common, j, k);
    }
  }
}
