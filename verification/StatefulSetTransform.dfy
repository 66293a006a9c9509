/** The transform CreateOrPatch applies to a StatefulSet: owner reference, container, environment,
    volume and claim upserts, then the loops over containers of certain names. Applied twice it
    equals itself applied once, exactly when no freshly appended container keeps a field reference
    without an API version; and what it does not manage it leaves alone. */
module StatefulSetTransform {
  import opened Common
  import opened Upserts

  /* ---------- the object ---------- */

  /** An environment value: a reference to a pod field carries an API version, which may be empty. */
  datatype FieldRef = NoRef | Unversioned(path: Value) | Versioned(path: Value, version: Value)

  const V1: Value := 1

  datatype EnvValue = EnvValue(content: Value, ref: FieldRef)

  datatype Unit = Unit

  type EnvVar = Item<EnvValue>
  type Mount = Item<Value>
  type OwnerRef = Item<Value>      // the name stands for the owner's UID
  type Volume = Item<Unit>

  datatype ClaimMeta = ClaimMeta(labels: Value, annotations: Value)
  type Claim = Item<ClaimMeta>

  /** What a container upsert replaces instead of merging. */
  datatype Replaced = Replaced(command: seq<string>, args: seq<Arg>, env: seq<EnvVar>, mounts: seq<Mount>, devices: Value)
  type Container = Item<Replaced>

  datatype StatefulSet = StatefulSet(
    fields: map<Field, Value>,
    owners: seq<OwnerRef>,
    initContainers: seq<Container>,
    containers: seq<Container>,
    volumes: seq<Volume>,
    claims: seq<Claim>)

  const MONGODB: Name := 1
  const EXPORTER: Name := 2
  const DETECTOR: Name := 3
  const COPY_CONFIG: Name := 4

  const SCHEDULER: Field := 0
  const CONFIG_FLAG := "--config"

  /* ---------- what the transform is given ---------- */

  datatype Storage = Ephemeral(volume: Volume) | Durable(claim: Option<Claim>)

  datatype ConfigSecret = ConfigSecret(path: string, mount: Mount, volume: Volume)

  datatype Part = Part(leaves: map<Field, Value>, own: Replaced)

  datatype Options = Options(
    direct: map<Field, Value>,      // labels, replicas, affinity, ...: written as they are
    schedulerName: Option<Value>,     // written only if not empty
    owner: OwnerRef,
    userInit: seq<Container>,         // from the pod template
    ourInit: seq<Container>,          // the installer
    mongodb: Part,
    args: seq<Arg>, userArgs: seq<Arg>,
    env: seq<EnvVar>, userEnv: seq<EnvVar>,
    detector: Option<Part>,           // with a replica set
    exporter: Option<Part>,           // with Prometheus monitoring
    volumes: seq<Volume>,
    rootEnv: seq<EnvVar>,             // credentials and pod name
    isMongos: bool,
    dataMounts: seq<Mount>,
    configVolume: Volume,
    storage: Storage,
    configSecret: Option<ConfigSecret>)

  /* ---------- environment variables ---------- */

  function Normal(e: EnvVar): EnvVar {
    if e.own.ref.Unversioned? then e.(own := e.own.(ref := Versioned(e.own.ref.path, V1))) else e
  }

  function NormalAll(env: seq<EnvVar>): (r: seq<EnvVar>)
    ensures |r| == |env| && forall i | 0 <= i < |env| :: r[i] == Normal(env[i])
  {
    seq(|env|, i requires 0 <= i < |env| => Normal(env[i]))
  }

  predicate IsNormal(env: seq<EnvVar>) {
    forall e <- env :: !e.own.ref.Unversioned?
  }

  /** Every variable written gets its version filled in. */
  function UpsertEnvVars(vars: seq<EnvVar>, nv: seq<EnvVar>): seq<EnvVar> {
    UpsertAll(vars, NormalAll(nv))
  }

  lemma NormalIsFixed(env: seq<EnvVar>)
    ensures NormalAll(env) == env <==> IsNormal(env)
    ensures IsNormal(NormalAll(env))
  {
    if NormalAll(env) == env {
      forall e | e in env
        ensures !e.own.ref.Unversioned?
      {
        var i :| 0 <= i < |env| && env[i] == e;
        assert NormalAll(env)[i] == env[i];
      }
    }
  }

  lemma NormalUpsert(vars: seq<EnvVar>, u: EnvVar)
    requires Normal(u) == u
    ensures NormalAll(Upsert(vars, u)) == Upsert(NormalAll(vars), u)
  {
    SameNames(vars, NormalAll(vars), u.name);
    var i := IndexOf(vars, u.name);
    var lhs, rhs := NormalAll(Upsert(vars, u)), Upsert(NormalAll(vars), u);
    assert |lhs| == |rhs|;
    forall j | 0 <= j < |lhs|
      ensures lhs[j] == rhs[j]
    {
    }
  }

  lemma SameNames<R, S>(xs: seq<Item<R>>, ys: seq<Item<S>>, name: Name)
    requires |xs| == |ys| && forall i | 0 <= i < |xs| :: xs[i].name == ys[i].name
    ensures IndexOf(xs, name) == IndexOf(ys, name)
  {
    var i, j := IndexOf(xs, name), IndexOf(ys, name);
    if i != -1 {
      assert ys[i].name == name;
    }
    if j != -1 {
      assert xs[j].name == name;
    }
  }

  lemma {:induction false} NormalUpsertAll(vars: seq<EnvVar>, us: seq<EnvVar>)
    requires forall u <- us :: Normal(u) == u
    ensures NormalAll(UpsertAll(vars, us)) == UpsertAll(NormalAll(vars), us)
  {
    if us != [] {
      NormalUpsertAll(vars, Front(us));
      NormalUpsert(UpsertAll(vars, Front(us)), Last(us));
    }
  }

  /** Filling in versions before or after an upsert is the same. */
  lemma NormalCommutes(vars: seq<EnvVar>, nv: seq<EnvVar>)
    ensures UpsertEnvVars(NormalAll(vars), nv) == NormalAll(UpsertEnvVars(vars, nv))
  {
    NormalUpsertAll(vars, NormalAll(nv));
  }

  /* ---------- container lists ---------- */

  function NormalOwn(o: Replaced): Replaced {
    o.(env := NormalAll(o.env))
  }

  /** The version is filled in when the container is there already, not when it is appended. */
  function UpsertContainer(cs: seq<Container>, u: Container): seq<Container> {
    Upsert(cs, if Has(cs, u.name) then u.(own := NormalOwn(u.own)) else u)
  }

  function UpsertContainers(cs: seq<Container>, us: seq<Container>): seq<Container> {
    if us == [] then cs else UpsertContainer(UpsertContainers(cs, Front(us)), Last(us))
  }

  function FoldedContainer(x: Option<Container>, us: seq<Container>): Option<Container> {
    if us == [] then x
    else
      var before := FoldedContainer(x, Front(us));
      if before.None? then Some(Last(us)) else Some(Merge(before.value, Last(us).(own := NormalOwn(Last(us).own))))
  }

  lemma {:induction false} ContainersLook(cs: seq<Container>, us: seq<Container>, name: Name)
    ensures Look(UpsertContainers(cs, us), name) == FoldedContainer(Look(cs, name), For(us, name))
  {
    hide NormalOwn, Merge, Upsert;
    if us != [] {
      var before, u := UpsertContainers(cs, Front(us)), Last(us);
      ContainersLook(cs, Front(us), name);
      UpsertLook(before, if Has(before, u.name) then u.(own := NormalOwn(u.own)) else u, name);
      if u.name == name {
        assert Front(For(us, name)) == For(Front(us), name);
      } else {
        assert For(us, name) == For(Front(us), name);
      }
    }
  }

  lemma {:induction false} ContainersSpare(cs: seq<Container>, us: seq<Container>)
    ensures Spares(cs, UpsertContainers(cs, us), us)
  {
    if us != [] {
      var before, u := UpsertContainers(cs, Front(us)), Last(us);
      ContainersSpare(cs, Front(us));
      var v := if Has(before, u.name) then u.(own := NormalOwn(u.own)) else u;
      UpsertLook(before, v, u.name);
      var r := Upsert(before, v);
      forall i | 0 <= i < |cs|
        ensures r[i].name == cs[i].name
        ensures i != IndexOf(cs, cs[i].name) || For(us, cs[i].name) == [] ==> r[i] == cs[i]
      {
        FirstStaysFirst(cs, before, u.name);
        assert before[i].name == cs[i].name;
        assert i < |before| && (i != IndexOf(before, u.name) ==> r[i] == before[i]);
      }
    }
  }

  /** Appended by its only update, and not touched by an upsert again. */
  predicate OnlyAppended(cs: seq<Container>, us: seq<Container>, name: Name) {
    !Has(cs, name) && |For(us, name)| == 1
  }

  lemma {:induction false} FoldedContainerInClosedForm(x: Option<Container>, us: seq<Container>, name: Name)
    requires us != [] && (forall u <- us :: u.name == name) && (x.Some? ==> x.value.name == name)
    ensures FoldedContainer(x, us) ==
              Some(Item(name, (if x.Some? then x.value.leaves else map[]) + Union(us),
                        if x.None? && |us| == 1 then us[0].own else NormalOwn(Last(us).own)))
  {
    if |us| > 1 {
      FoldedContainerInClosedForm(x, Front(us), name);
      var m := if x.Some? then x.value.leaves else map[];
      assert (m + Union(Front(us))) + Last(us).leaves == m + Union(us);
    } else {
      assert Front(us) == [] && FoldedContainer(x, []) == x;
      assert Union(us) == map[] + us[0].leaves == us[0].leaves;
      assert map[] + us[0].leaves == us[0].leaves;
    }
  }

  lemma {:induction false} ContainersPresent(cs: seq<Container>, us: seq<Container>, name: Name)
    ensures Has(UpsertContainers(cs, us), name) <==> Has(cs, name) || For(us, name) != []
  {
    if us != [] {
      var before, u := UpsertContainers(cs, Front(us)), Last(us);
      ContainersPresent(cs, Front(us), name);
      UpsertLook(before, if Has(before, u.name) then u.(own := NormalOwn(u.own)) else u, name);
    }
  }

  lemma {:induction false} ContainersDoNotGrow(cs: seq<Container>, us: seq<Container>)
    requires forall u <- us :: Has(cs, u.name)
    ensures |UpsertContainers(cs, us)| == |cs|
  {
    if us != [] {
      var before, u := UpsertContainers(cs, Front(us)), Last(us);
      ContainersDoNotGrow(cs, Front(us));
      ContainersPresent(cs, Front(us), u.name);
      UpsertLook(before, if Has(before, u.name) then u.(own := NormalOwn(u.own)) else u, u.name);
    }
  }

  lemma {:induction false} ContainersConcat(cs: seq<Container>, us: seq<Container>, vs: seq<Container>)
    ensures UpsertContainers(cs, us + vs) == UpsertContainers(UpsertContainers(cs, us), vs)
  {
    if vs == [] {
      assert us + vs == us;
    } else {
      ContainersConcat(cs, us, Front(vs));
      assert Front(us + vs) == us + Front(vs) && Last(us + vs) == Last(vs);
    }
  }

  /* ---------- loops over the containers of a name ---------- */

  /** What a loop does to one container: its name, its replaceable part, and whether it is the
      first of its name. */
  type Touch = (Name, Replaced, bool) -> Replaced

  function IsFirst<R>(xs: seq<Item<R>>, i: nat): bool
    requires i < |xs|
  {
    i == IndexOf(xs, xs[i].name)
  }

  function Edited(xs: seq<Container>, g: Touch): (r: seq<Container>)
    ensures |r| == |xs|
    ensures forall i | 0 <= i < |xs| :: r[i] == xs[i].(own := g(xs[i].name, xs[i].own, IsFirst(xs, i)))
  {
    seq(|xs|, i requires 0 <= i < |xs| => xs[i].(own := g(xs[i].name, xs[i].own, IsFirst(xs, i))))
  }

  ghost predicate Settling(g: Touch) {
    forall n, o, b :: g(n, g(n, o, b), b) == g(n, o, b)
  }

  ghost predicate Tolerant(g: Touch) {
    forall n, o, b :: g(n, NormalOwn(o), b) == NormalOwn(g(n, o, b))
  }

  function Pass(cs: seq<Container>, us: seq<Container>, g: Touch): seq<Container> {
    Edited(UpsertContainers(cs, us), g)
  }

  lemma EditedKeepsNames(xs: seq<Container>, g: Touch, name: Name)
    ensures Extends(xs, Edited(xs, g)) && IndexOf(Edited(xs, g), name) == IndexOf(xs, name)
  {
    SameNames(xs, Edited(xs, g), name);
  }

  /** A first entry with updates of its own, after one series of upserts and after another on top
      of edited entries. */
  lemma FirstEntryTwice(cs: seq<Container>, us: seq<Container>, once: seq<Container>, n: Name, own: Replaced)
    requires For(us, n) != [] && Has(UpsertContainers(cs, us), n)
    requires Look(once, n) == Some(Look(UpsertContainers(cs, us), n).value.(own := own))
    ensures var first := Look(UpsertContainers(cs, us), n).value;
            var second := Look(UpsertContainers(once, us), n);
            && first.name == n
            && second == Some(Item(n, first.leaves, NormalOwn(Last(For(us, n)).own)))
            && (if OnlyAppended(cs, us, n) then first.own == For(us, n)[0].own && NormalOwn(Last(For(us, n)).own) == NormalOwn(first.own)
                else first.own == NormalOwn(Last(For(us, n)).own))
  {
    hide UpsertContainers, NormalOwn;
    ContainersLook(cs, us, n);
    ContainersLook(once, us, n);
    FoldedContainerInClosedForm(Look(cs, n), For(us, n), n);
    FoldedContainerInClosedForm(Look(once, n), For(us, n), n);
    var m := if Look(cs, n).Some? then Look(cs, n).value.leaves else map[];
    assert (m + Union(For(us, n))) + Union(For(us, n)) == m + Union(For(us, n));
  }

  /** The version of an entry after one pass, and after another one on top. */
  lemma EntryTwice(cs: seq<Container>, us: seq<Container>, g: Touch, i: nat)
    requires Settling(g) && Tolerant(g)
    requires i < |Pass(cs, us, g)|
    requires |Pass(Pass(cs, us, g), us, g)| == |Pass(cs, us, g)|
    ensures var once := Pass(cs, us, g);
            var n := once[i].name;
            if OnlyAppended(cs, us, n) && IsFirst(once, i) then
              once[i].own == g(n, For(us, n)[0].own, true) && Pass(once, us, g)[i] == once[i].(own := NormalOwn(once[i].own))
            else Pass(once, us, g)[i] == once[i]
  {
    hide UpsertContainers, NormalOwn, Edited;
    var u1 := UpsertContainers(cs, us);
    var once := Edited(u1, g);
    var u2 := UpsertContainers(once, us);
    var twice := Edited(u2, g);
    var n := u1[i].name;
    EditedKeepsNames(u1, g, n);
    ContainersSpare(once, us);
    assert u2[i].name == once[i].name == n;
    FirstStaysFirst(once, u2, n);
    assert IsFirst(u2, i) == IsFirst(once, i) == IsFirst(u1, i);
    if IsFirst(once, i) && For(us, n) != [] {
      FirstEntryTwice(cs, us, once, n, once[i].own);
    }
  }

  /** One pass suffices exactly when whatever it only appended has its versions filled in. */
  lemma PassTwice(cs: seq<Container>, us: seq<Container>, g: Touch)
    requires Settling(g) && Tolerant(g)
    ensures Pass(Pass(cs, us, g), us, g) == Pass(cs, us, g) <==>
              forall n | OnlyAppended(cs, us, n) :: IsNormal(g(n, For(us, n)[0].own, true).env)
  {
    var once := Pass(cs, us, g);
    var twice := Pass(once, us, g);
    forall u | u in us
      ensures Has(once, u.name)
    {
      ForIsThere(us, u);
      ContainersPresent(cs, us, u.name);
      EditedKeepsNames(UpsertContainers(cs, us), g, u.name);
    }
    ContainersDoNotGrow(once, us);
    if forall n | OnlyAppended(cs, us, n) :: IsNormal(g(n, For(us, n)[0].own, true).env) {
      forall i | 0 <= i < |once|
        ensures twice[i] == once[i]
      {
        EntryTwice(cs, us, g, i);
        NormalIsFixed(once[i].own.env);
      }
    }
    if twice == once {
      forall n | OnlyAppended(cs, us, n)
        ensures IsNormal(g(n, For(us, n)[0].own, true).env)
      {
        ContainersPresent(cs, us, n);
        EditedKeepsNames(UpsertContainers(cs, us), g, n);
        var i := IndexOf(once, n);
        EntryTwice(cs, us, g, i);
        NormalIsFixed(once[i].own.env);
      }
    }
  }

  /* ---------- the loops of this transform ---------- */

  function EnvTouch(rootEnv: seq<EnvVar>): Touch {
    (n: Name, o: Replaced, first: bool) =>
      if n == MONGODB || n == EXPORTER || n == DETECTOR then o.(env := UpsertEnvVars(o.env, rootEnv)) else o
  }

  /** upsertDataVolume stops at the first container of that name. */
  function MountTouch(name: Name, mounts: seq<Mount>): Touch {
    (n: Name, o: Replaced, first: bool) =>
      if n == name && first then o.(mounts := UpsertAll(o.mounts, mounts)) else o
  }

  function ConfigTouch(path: string): Touch {
    (n: Name, o: Replaced, first: bool) =>
      if n == MONGODB then o.(args := UpsertArgs(o.args, [Flag(CONFIG_FLAG, path)])) else o
  }

  function InitTouch(mount: Mount): Touch {
    (n: Name, o: Replaced, first: bool) =>
      if n == COPY_CONFIG then o.(mounts := UpsertAll(o.mounts, [mount])) else o
  }

  function NoTouch(): Touch {
    (n: Name, o: Replaced, first: bool) => o
  }

  function Then(g: Touch, h: Touch): Touch {
    (n: Name, o: Replaced, first: bool) => h(n, g(n, o, first), first)
  }

  lemma EnvTouchOn(rootEnv: seq<EnvVar>, n: Name, o: Replaced, first: bool)
    ensures EnvTouch(rootEnv)(n, o, first) ==
              if n == MONGODB || n == EXPORTER || n == DETECTOR then o.(env := UpsertEnvVars(o.env, rootEnv)) else o
  {
    hide UpsertEnvVars;
  }

  lemma EditedInTurn(xs: seq<Container>, g: Touch, h: Touch)
    ensures Edited(Edited(xs, g), h) == Edited(xs, Then(g, h))
  {
    var lhs, rhs := Edited(Edited(xs, g), h), Edited(xs, Then(g, h));
    forall i | 0 <= i < |xs|
      ensures lhs[i] == rhs[i]
    {
      EditedKeepsNames(xs, g, xs[i].name);
    }
  }

  /** All the loops over the containers, one after the other. */
  function ContainerTouch(o: Options): Touch {
    var env := EnvTouch(o.rootEnv);
    var data := if o.isMongos then env else Then(env, MountTouch(MONGODB, o.dataMounts));
    if o.configSecret.None? then data else Then(data, ConfigTouch(o.configSecret.value.path))
  }

  function InitContainerTouch(o: Options): Touch {
    if o.configSecret.None? then NoTouch() else InitTouch(o.configSecret.value.mount)
  }

  /* ---------- the transform ---------- */

  function MongodbContainer(o: Options): Container {
    Item(MONGODB, o.mongodb.leaves,
         o.mongodb.own.(args := UpsertArgs(o.args, o.userArgs), env := UpsertEnvVars(o.env, o.userEnv)))
  }

  function Optional(name: Name, part: Option<Part>): seq<Container> {
    if part.None? then [] else [Item(name, part.value.leaves, part.value.own)]
  }

  function Managed(o: Options): seq<Container> {
    [MongodbContainer(o)] + Optional(DETECTOR, o.detector) + Optional(EXPORTER, o.exporter)
  }

  function DataVolumes(o: Options): seq<Volume> {
    if o.isMongos then [] else [o.configVolume] + (if o.storage.Ephemeral? then [o.storage.volume] else [])
  }

  function ManagedVolumes(o: Options): seq<Volume> {
    o.volumes + DataVolumes(o) + (if o.configSecret.Some? then [o.configSecret.value.volume] else [])
  }

  function ManagedClaims(o: Options): seq<Claim> {
    if !o.isMongos && o.storage.Durable? && o.storage.claim.Some? then [o.storage.claim.value] else []
  }

  function Direct(o: Options): map<Field, Value> {
    o.direct + (if o.schedulerName.Some? then map[SCHEDULER := o.schedulerName.value] else map[])
  }

  /** Durable storage without a claim spec is dereferenced. */
  predicate Panics(o: Options) {
    !o.isMongos && o.storage.Durable? && o.storage.claim.None?
  }

  function Transformed(o: Options, x: StatefulSet): StatefulSet {
    StatefulSet(
      x.fields + Direct(o),
      Upsert(x.owners, o.owner),
      Pass(x.initContainers, o.userInit + o.ourInit, InitContainerTouch(o)),
      Pass(x.containers, Managed(o), ContainerTouch(o)),
      UpsertAll(x.volumes, ManagedVolumes(o)),
      UpsertAll(x.claims, ManagedClaims(o)))
  }

  /* ---------- twice is once ---------- */

  lemma EnvVarsTwice(vars: seq<EnvVar>, rootEnv: seq<EnvVar>)
    ensures UpsertEnvVars(UpsertEnvVars(vars, rootEnv), rootEnv) == UpsertEnvVars(vars, rootEnv)
  {
    UpsertAllTwice(vars, NormalAll(rootEnv));
  }

  lemma EnvTouchBehaves(rootEnv: seq<EnvVar>)
    ensures Settling(EnvTouch(rootEnv)) && Tolerant(EnvTouch(rootEnv))
  {
    hide UpsertEnvVars, NormalAll;
    var g := EnvTouch(rootEnv);
    forall n, o: Replaced, b
      ensures g(n, g(n, o, b), b) == g(n, o, b)
      ensures g(n, NormalOwn(o), b) == NormalOwn(g(n, o, b))
    {
      EnvVarsTwice(o.env, rootEnv);
      NormalCommutes(o.env, rootEnv);
    }
  }

  lemma MountTouchBehaves(name: Name, mounts: seq<Mount>)
    ensures Settling(MountTouch(name, mounts)) && Tolerant(MountTouch(name, mounts))
  {
    forall o: Replaced
      ensures UpsertAll(UpsertAll(o.mounts, mounts), mounts) == UpsertAll(o.mounts, mounts)
    {
      UpsertAllTwice(o.mounts, mounts);
    }
  }

  lemma InitTouchBehaves(mount: Mount)
    ensures Settling(InitTouch(mount)) && Tolerant(InitTouch(mount))
  {
    forall o: Replaced
      ensures UpsertAll(UpsertAll(o.mounts, [mount]), [mount]) == UpsertAll(o.mounts, [mount])
    {
      UpsertAllTwice(o.mounts, [mount]);
    }
  }

  lemma ConfigTouchBehaves(path: string)
    ensures Settling(ConfigTouch(path)) && Tolerant(ConfigTouch(path))
  {
    forall o: Replaced
      ensures UpsertArgs(UpsertArgs(o.args, [Flag(CONFIG_FLAG, path)]), [Flag(CONFIG_FLAG, path)]) ==
              UpsertArgs(o.args, [Flag(CONFIG_FLAG, path)])
    {
      UpsertFlagTwice(o.args, Flag(CONFIG_FLAG, path));
    }
  }

  /** Loops that change different parts of a container. */
  ghost predicate Independent(g: Touch, h: Touch) {
    forall n, o, b :: g(n, h(n, o, b), b) == h(n, g(n, o, b), b)
  }

  lemma ThenBehaves(g: Touch, h: Touch)
    requires Settling(g) && Tolerant(g) && Settling(h) && Tolerant(h) && Independent(g, h)
    ensures Settling(Then(g, h)) && Tolerant(Then(g, h))
  {
    forall n, o, b
      ensures Then(g, h)(n, Then(g, h)(n, o, b), b) == Then(g, h)(n, o, b)
      ensures Then(g, h)(n, NormalOwn(o), b) == NormalOwn(Then(g, h)(n, o, b))
    {
      assert g(n, h(n, g(n, o, b), b), b) == h(n, g(n, g(n, o, b), b), b);
    }
  }

  lemma TouchesAreIndependent(rootEnv: seq<EnvVar>, mounts: seq<Mount>, path: string)
    ensures Independent(EnvTouch(rootEnv), MountTouch(MONGODB, mounts))
    ensures Independent(EnvTouch(rootEnv), ConfigTouch(path))
    ensures Independent(Then(EnvTouch(rootEnv), MountTouch(MONGODB, mounts)), ConfigTouch(path))
  {
    hide UpsertEnvVars, UpsertAll, UpsertArgs;
  }

  lemma ContainerTouchBehaves(o: Options)
    ensures Settling(ContainerTouch(o)) && Tolerant(ContainerTouch(o))
  {
    hide Settling, Tolerant, Independent, EnvTouch, MountTouch, ConfigTouch, Then;
    var env := EnvTouch(o.rootEnv);
    var data := MountTouch(MONGODB, o.dataMounts);
    var path := if o.configSecret.Some? then o.configSecret.value.path else [];
    EnvTouchBehaves(o.rootEnv);
    MountTouchBehaves(MONGODB, o.dataMounts);
    ConfigTouchBehaves(path);
    TouchesAreIndependent(o.rootEnv, o.dataMounts, path);
    ThenBehaves(env, data);
    ThenBehaves(env, ConfigTouch(path));
    ThenBehaves(Then(env, data), ConfigTouch(path));
  }

  lemma ContainerTouchOnEnv(o: Options, n: Name, own: Replaced)
    ensures ContainerTouch(o)(n, own, true).env == EnvTouch(o.rootEnv)(n, own, true).env
  {
    hide UpsertEnvVars, UpsertAll, UpsertArgs;
  }

  lemma InitContainerTouchBehaves(o: Options)
    ensures Settling(InitContainerTouch(o)) && Tolerant(InitContainerTouch(o))
    ensures forall n, own, b :: InitContainerTouch(o)(n, own, b).env == own.env
  {
    if o.configSecret.Some? {
      InitTouchBehaves(o.configSecret.value.mount);
    }
  }

  /** No container the transform only appends is left with a field reference without a version. */
  ghost predicate VersionsFilledIn(o: Options, x: StatefulSet) {
    var inits := o.userInit + o.ourInit;
    && (forall n | OnlyAppended(x.initContainers, inits, n) :: IsNormal(For(inits, n)[0].own.env))
    && (forall n | OnlyAppended(x.containers, Managed(o), n) ::
          IsNormal(EnvTouch(o.rootEnv)(n, For(Managed(o), n)[0].own, true).env))
  }

  lemma InitPassTwice(o: Options, cs: seq<Container>)
    ensures var us := o.userInit + o.ourInit;
            var g := InitContainerTouch(o);
            Pass(Pass(cs, us, g), us, g) == Pass(cs, us, g) <==>
              forall n | OnlyAppended(cs, us, n) :: IsNormal(For(us, n)[0].own.env)
  {
    hide Pass, Settling, Tolerant, InitContainerTouch, IsNormal, Has;
    InitContainerTouchBehaves(o);
    PassTwice(cs, o.userInit + o.ourInit, InitContainerTouch(o));
  }

  lemma ContainerPassTwice(o: Options, cs: seq<Container>)
    ensures var us := Managed(o);
            var g := ContainerTouch(o);
            Pass(Pass(cs, us, g), us, g) == Pass(cs, us, g) <==>
              forall n | OnlyAppended(cs, us, n) :: IsNormal(EnvTouch(o.rootEnv)(n, For(us, n)[0].own, true).env)
  {
    hide Pass, Settling, Tolerant, ContainerTouch, EnvTouch, IsNormal, Managed, Has;
    ContainerTouchBehaves(o);
    PassTwice(cs, Managed(o), ContainerTouch(o));
    forall n, own {:trigger ContainerTouch(o)(n, own, true)}
      ensures ContainerTouch(o)(n, own, true).env == EnvTouch(o.rootEnv)(n, own, true).env
    {
      ContainerTouchOnEnv(o, n, own);
    }
  }

  lemma RestTwice(o: Options, x: StatefulSet)
    ensures var y, z := Transformed(o, x), Transformed(o, Transformed(o, x));
            z.fields == y.fields && z.owners == y.owners && z.volumes == y.volumes && z.claims == y.claims
  {
    hide Pass, UpsertAll, Upsert, ContainerTouch, InitContainerTouch, Direct, ManagedVolumes, ManagedClaims, Managed;
    UpsertAllTwice(x.volumes, ManagedVolumes(o));
    UpsertAllTwice(x.claims, ManagedClaims(o));
    UpsertTwice(x.owners, o.owner);
    assert (x.fields + Direct(o)) + Direct(o) == x.fields + Direct(o);
  }

  /** Idempotence, exactly: for any object and any options, applying the transform to its own
      result changes nothing if and only if the versions are filled in. */
  lemma TransformedTwice(o: Options, x: StatefulSet)
    ensures Transformed(o, Transformed(o, x)) == Transformed(o, x) <==> VersionsFilledIn(o, x)
  {
    hide Pass, UpsertAll, Upsert, ContainerTouch, InitContainerTouch, Direct, ManagedVolumes, ManagedClaims, Managed,
      OnlyAppended, IsNormal, EnvTouch;
    RestTwice(o, x);
    InitPassTwice(o, x.initContainers);
    ContainerPassTwice(o, x.containers);
  }

  lemma UpsertTwice<R(!new)>(xs: seq<Item<R>>, u: Item<R>)
    ensures Upsert(Upsert(xs, u), u) == Upsert(xs, u)
  {
    UpsertAllTwice(xs, [u]);
    SingleUpsert(xs, u);
    SingleUpsert(Upsert(xs, u), u);
  }

  /** From the second application on nothing changes, whatever the options. */
  lemma SecondTimeIsFinal(o: Options, x: StatefulSet)
    ensures var y := Transformed(o, Transformed(o, x)); Transformed(o, y) == y
  {
    var y := Transformed(o, x);
    hide Edited, UpsertAll, Upsert, ContainerTouch, InitContainerTouch, Direct, ManagedVolumes, ManagedClaims, Managed, Has, IsNormal, EnvTouch;
    forall n | For(o.userInit + o.ourInit, n) != []
      ensures Has(y.initContainers, n)
    {
      ContainersPresent(x.initContainers, o.userInit + o.ourInit, n);
      EditedKeepsPresence(UpsertContainers(x.initContainers, o.userInit + o.ourInit), InitContainerTouch(o), n);
    }
    forall n | For(Managed(o), n) != []
      ensures Has(y.containers, n)
    {
      ContainersPresent(x.containers, Managed(o), n);
      EditedKeepsPresence(UpsertContainers(x.containers, Managed(o)), ContainerTouch(o), n);
    }
    assert VersionsFilledIn(o, y);
    var z := Transformed(o, y);
    TwiceAndPresent(o, x, z);
  }

  lemma EditedKeepsPresence(xs: seq<Container>, g: Touch, name: Name)
    ensures Has(Edited(xs, g), name) <==> Has(xs, name)
  {
    EditedKeepsNames(xs, g, name);
  }

  lemma TwiceAndPresent(o: Options, x: StatefulSet, z: StatefulSet)
    requires z == Transformed(o, Transformed(o, x)) && VersionsFilledIn(o, Transformed(o, x))
    ensures Transformed(o, z) == z
  {
    hide Transformed, VersionsFilledIn;
    TransformedTwice(o, Transformed(o, x));
  }

  /** Options whose references all carry a version: one application is enough on any object. */
  lemma VersionedOptionsSettleAtOnce(o: Options, x: StatefulSet)
    requires forall c <- o.userInit + o.ourInit :: IsNormal(c.own.env)
    requires o.exporter.Some? ==> IsNormal(o.exporter.value.own.env)
    requires o.detector.Some? ==> IsNormal(o.detector.value.own.env)
    requires IsNormal(o.env)
    ensures Transformed(o, Transformed(o, x)) == Transformed(o, x)
  {
    var inits := o.userInit + o.ourInit;
    forall n | OnlyAppended(x.initContainers, inits, n)
      ensures IsNormal(For(inits, n)[0].own.env)
    {
      ForIsFrom(inits, n);
    }
    forall n | OnlyAppended(x.containers, Managed(o), n)
      ensures IsNormal(EnvTouch(o.rootEnv)(n, For(Managed(o), n)[0].own, true).env)
    {
      ForIsFrom(Managed(o), n);
      var u := For(Managed(o), n)[0];
      ManagedAreNormal(o, u);
      UpsertStaysNormal(u.own.env, o.rootEnv);
    }
    TransformedTwice(o, x);
  }

  lemma ManagedAreNormal(o: Options, u: Container)
    requires u in Managed(o) && IsNormal(o.env)
    requires o.exporter.Some? ==> IsNormal(o.exporter.value.own.env)
    requires o.detector.Some? ==> IsNormal(o.detector.value.own.env)
    ensures IsNormal(u.own.env)
  {
    hide IsNormal, UpsertEnvVars;
    UpsertStaysNormal(o.env, o.userEnv);
    if u in Optional(DETECTOR, o.detector) {
      assert u.own == o.detector.value.own;
    } else if u in Optional(EXPORTER, o.exporter) {
      assert u.own == o.exporter.value.own;
    } else {
      assert u == MongodbContainer(o);
    }
  }

  lemma {:induction false} ForIsFrom(us: seq<Container>, name: Name)
    ensures forall u <- For(us, name) :: u in us
  {
    if us != [] {
      ForIsFrom(Front(us), name);
    }
  }

  lemma UpsertStaysNormal(vars: seq<EnvVar>, nv: seq<EnvVar>)
    requires IsNormal(vars)
    ensures IsNormal(UpsertEnvVars(vars, nv))
  {
    NormalIsFixed(vars);
    NormalCommutes(vars, nv);
    NormalIsFixed(UpsertEnvVars(vars, nv));
  }

  /** One application is not enough whenever an init container that only one list entry gives, and
      that the object does not have yet, reads a pod field and leaves the version out. */
  lemma UnversionedReferenceTakesTwo(o: Options, x: StatefulSet, c: Container, e: EnvVar)
    requires For(o.userInit + o.ourInit, c.name) == [c] && !Has(x.initContainers, c.name)
    requires e in c.own.env && e.own.ref.Unversioned?
    ensures Transformed(o, Transformed(o, x)) != Transformed(o, x)
  {
    assert OnlyAppended(x.initContainers, o.userInit + o.ourInit, c.name);
    hide Transformed;
    TransformedTwice(o, x);
  }

  /** Such options, as the operator builds them: a user's init container, and the installer. */
  function WithPodIp(): (o: Options)
    ensures |o.userInit| == 1 && |o.ourInit| == 1
  {
    var podIp := Item(20, map[], EnvValue(0, Unversioned(7)));
    var user := Item(10, map[1 := 5], Replaced([], [], [podIp], [], 0));
    var installer := Item(COPY_CONFIG, map[1 := 6], Replaced(["install.sh"], [], [], [], 0));
    var part := Part(map[1 := 4], Replaced(["mongod"], [], [], [], 0));
    Options(map[2 := 3], None, Item(30, map[], 0), [user], [installer], part, [], [], [], [], None, None, [], [],
            false, [], Item(40, map[], Unit), Durable(Some(Item(41, map[], ClaimMeta(0, 0)))), None)
  }

  lemma InstallerDoesNotHelp()
    ensures var o, empty := WithPodIp(), StatefulSet(map[], [], [], [], [], []);
            !Panics(o) && Transformed(o, Transformed(o, empty)) != Transformed(o, empty)
  {
    var o, empty := WithPodIp(), StatefulSet(map[], [], [], [], [], []);
    var user, installer := o.userInit[0], o.ourInit[0];
    assert o.userInit + o.ourInit == [user, installer];
    assert Front([user, installer]) == [user] && Front([user]) == [];
    assert For([user], 10) == [user];
    hide Transformed;
    UnversionedReferenceTakesTwo(o, empty, user, user.own.env[0]);
  }

  /* ---------- what is not managed ---------- */

  lemma PassSpares(cs: seq<Container>, us: seq<Container>, g: Touch, i: nat)
    requires i < |cs| && For(us, cs[i].name) == []
    requires forall own, b :: g(cs[i].name, own, b) == own
    ensures i < |Pass(cs, us, g)| && Pass(cs, us, g)[i] == cs[i]
  {
    ContainersSpare(cs, us);
    assert UpsertContainers(cs, us)[i] == cs[i];
  }

  predicate OurContainer(name: Name) {
    name == MONGODB || name == EXPORTER || name == DETECTOR
  }

  /** Containers, init containers, volumes, claims, owners and fields the operator does not manage
      are in the result as they were, at the same place. */
  lemma UnmanagedIsUntouched(o: Options, x: StatefulSet)
    ensures var y := Transformed(o, x);
            && |x.containers| <= |y.containers|
            && (forall i | 0 <= i < |x.containers| && !OurContainer(x.containers[i].name) :: y.containers[i] == x.containers[i])
            && |x.initContainers| <= |y.initContainers|
            && (forall i | 0 <= i < |x.initContainers| && x.initContainers[i].name != COPY_CONFIG
                           && For(o.userInit + o.ourInit, x.initContainers[i].name) == [] ::
                  y.initContainers[i] == x.initContainers[i])
            && |x.volumes| <= |y.volumes|
            && (forall i | 0 <= i < |x.volumes| && For(ManagedVolumes(o), x.volumes[i].name) == [] :: y.volumes[i] == x.volumes[i])
            && |x.claims| <= |y.claims|
            && (forall i | 0 <= i < |x.claims| && For(ManagedClaims(o), x.claims[i].name) == [] :: y.claims[i] == x.claims[i])
            && |x.owners| <= |y.owners|
            && (forall i | 0 <= i < |x.owners| && x.owners[i].name != o.owner.name :: y.owners[i] == x.owners[i])
            && (forall f <- x.fields | f !in Direct(o) :: f in y.fields && y.fields[f] == x.fields[f])
  {
    hide UpsertAll, Upsert, UpsertContainers, ContainerTouch, InitContainerTouch, Managed, ManagedVolumes, ManagedClaims;
    var inits := o.userInit + o.ourInit;
    UpsertAllSpares(x.volumes, ManagedVolumes(o));
    UpsertAllSpares(x.claims, ManagedClaims(o));
    UpsertLook(x.owners, o.owner, o.owner.name);
    ContainersSpare(x.containers, Managed(o));
    ContainersSpare(x.initContainers, inits);
    forall i | 0 <= i < |x.containers| && !OurContainer(x.containers[i].name)
      ensures Pass(x.containers, Managed(o), ContainerTouch(o))[i] == x.containers[i]
    {
      OtherContainers(o, x.containers[i].name);
      PassSpares(x.containers, Managed(o), ContainerTouch(o), i);
    }
    forall i | 0 <= i < |x.initContainers| && x.initContainers[i].name != COPY_CONFIG && For(inits, x.initContainers[i].name) == []
      ensures Pass(x.initContainers, inits, InitContainerTouch(o))[i] == x.initContainers[i]
    {
      OtherInitContainers(o, x.initContainers[i].name);
      PassSpares(x.initContainers, inits, InitContainerTouch(o), i);
    }
  }

  lemma OtherContainers(o: Options, name: Name)
    requires !OurContainer(name)
    ensures For(Managed(o), name) == []
    ensures forall own, b :: ContainerTouch(o)(name, own, b) == own
  {
    hide UpsertEnvVars, UpsertAll, UpsertArgs;
    forall u <- Managed(o)
      ensures u.name != name
    {
    }
    ForOthersIsEmpty(Managed(o), name);
  }

  lemma OtherInitContainers(o: Options, name: Name)
    requires name != COPY_CONFIG
    ensures forall own, b :: InitContainerTouch(o)(name, own, b) == own
  {
  }

  lemma {:induction false} ForOthersIsEmpty(us: seq<Container>, name: Name)
    requires forall u <- us :: u.name != name
    ensures For(us, name) == []
  {
    if us != [] {
      ForOthersIsEmpty(Front(us), name);
    }
  }

  /* ---------- the transform as it runs ---------- */

  method UpsertContainerList(cs: seq<Container>, addons: seq<Container>) returns (r: seq<Container>)
    ensures r == UpsertContainers(cs, addons)
  {
    r := cs;
    for k := 0 to |addons|
      invariant r == UpsertContainers(cs, addons[..k])
    {
      assert Front(addons[..k + 1]) == addons[..k];
      var i := 0;
      while i < |r| && r[i].name != addons[k].name
        invariant 0 <= i <= |r|
        invariant forall j | 0 <= j < i :: r[j].name != addons[k].name
      {
        i := i + 1;
      }
      if i < |r| {
        assert IndexOf(r, addons[k].name) == i;
        r := r[i := Merge(r[i], addons[k].(own := NormalOwn(addons[k].own)))];
      } else {
        r := r + [addons[k]];
      }
    }
    assert addons[..|addons|] == addons;
  }

  class StatefulSetObject {
    var fields: map<Field, Value>
    var owners: seq<OwnerRef>
    var initContainers: seq<Container>
    var containers: seq<Container>
    var volumes: seq<Volume>
    var claims: seq<Claim>

    constructor (x: StatefulSet)
      ensures Value() == x
    {
      fields, owners, initContainers, containers, volumes, claims :=
        x.fields, x.owners, x.initContainers, x.containers, x.volumes, x.claims;
    }

    function Value(): StatefulSet
      reads this
    {
      StatefulSet(fields, owners, initContainers, containers, volumes, claims)
    }

    /** upsertEnv: every container of ours gets the credentials and the pod's name. */
    method UpsertEnv(rootEnv: seq<EnvVar>)
      modifies this`containers
      ensures containers == Edited(old(containers), EnvTouch(rootEnv))
    {
      ghost var was := containers;
      ghost var done := Edited(was, EnvTouch(rootEnv));
      for i := 0 to |containers|
        invariant |containers| == |was|
        invariant forall k | 0 <= k < |was| :: containers[k] == if k < i then done[k] else was[k]
      {
        hide UpsertAll, NormalAll, Edited, EnvTouch;
        var c := containers[i];
        EnvTouchOn(rootEnv, c.name, c.own, IsFirst(was, i));
        assert done[i] == c.(own := EnvTouch(rootEnv)(c.name, c.own, IsFirst(was, i)));
        if c.name == MONGODB || c.name == EXPORTER || c.name == DETECTOR {
          var env := UpsertEach(c.own.env, NormalAll(rootEnv));
          assert env == UpsertEnvVars(c.own.env, rootEnv);
          containers := containers[i := c.(own := c.own.(env := env))];
        }
        assert containers[i] == done[i];
      }
    }

    /** upsertDataVolume: mounts for the first database container, and its volumes or its claim;
        false when a missing claim spec is dereferenced. Without that container nothing happens. */
    method UpsertDataVolume(o: Options) returns (ok: bool)
      requires !o.isMongos
      modifies this`containers, this`volumes, this`claims
      ensures ok <==> o.storage.Ephemeral? || o.storage.claim.Some? || !Has(old(containers), MONGODB)
      ensures !Has(old(containers), MONGODB) ==>
                containers == old(containers) && volumes == old(volumes) && claims == old(claims)
      ensures ok && Has(old(containers), MONGODB) ==>
                && containers == Edited(old(containers), MountTouch(MONGODB, o.dataMounts))
                && volumes == UpsertAll(old(volumes), DataVolumes(o))
                && claims == UpsertAll(old(claims), ManagedClaims(o))
    {
      ghost var was := containers;
      ok := true;
      for i := 0 to |containers|
        invariant ok && containers == was && volumes == old(volumes) && claims == old(claims)
        invariant forall j | 0 <= j < i :: was[j].name != MONGODB
      {
        var c := containers[i];
        if c.name == MONGODB {
          assert IndexOf(was, MONGODB) == i;
          var mounts := UpsertEach(c.own.mounts, o.dataMounts);
          containers := containers[i := c.(own := c.own.(mounts := mounts))];
          assert containers == Edited(was, MountTouch(MONGODB, o.dataMounts));
          if o.storage.Ephemeral? {
            volumes := UpsertEach(volumes, [o.configVolume] + [o.storage.volume]);
            claims := UpsertEach(claims, []);
          } else {
            volumes := UpsertEach(volumes, [o.configVolume] + []);
            ok := o.storage.claim.Some?;
            if ok {
              claims := UpsertEach(claims, [o.storage.claim.value]);
            }
          }
          break;
        }
      }
    }

    /** upsertConfigSecretVolume: the argument, the installer's mount, the volume. */
    method UpsertConfigSecretVolume(c: ConfigSecret)
      modifies this`containers, this`initContainers, this`volumes
      ensures containers == Edited(old(containers), ConfigTouch(c.path))
      ensures initContainers == Edited(old(initContainers), InitTouch(c.mount))
      ensures volumes == UpsertAll(old(volumes), [c.volume])
    {
      ghost var was, done := containers, Edited(containers, ConfigTouch(c.path));
      for i := 0 to |containers|
        invariant |containers| == |was| && initContainers == old(initContainers) && volumes == old(volumes)
        invariant forall k | 0 <= k < |was| :: containers[k] == if k < i then done[k] else was[k]
      {
        hide UpsertAll, UpsertArgs, Edited;
        var k := containers[i];
        assert done[i] == k.(own := ConfigTouch(c.path)(k.name, k.own, IsFirst(was, i)));
        if k.name == MONGODB {
          var args := UpsertArgumentList(k.own.args, [Flag(CONFIG_FLAG, c.path)]);
          containers := containers[i := k.(own := k.own.(args := args))];
        }
        assert containers[i] == done[i];
      }
      UpsertInstallerMount(c.mount);
      volumes := UpsertEach(volumes, [c.volume]);
    }

    method UpsertInstallerMount(mount: Mount)
      modifies this`initContainers
      ensures initContainers == Edited(old(initContainers), InitTouch(mount))
    {
      ghost var was, done := initContainers, Edited(initContainers, InitTouch(mount));
      for i := 0 to |initContainers|
        invariant |initContainers| == |was|
        invariant forall k | 0 <= k < |was| :: initContainers[k] == if k < i then done[k] else was[k]
      {
        hide UpsertAll, Edited;
        var k := initContainers[i];
        assert done[i] == k.(own := InitTouch(mount)(k.name, k.own, IsFirst(was, i)));
        if k.name == COPY_CONFIG {
          var mounts := UpsertEach(k.own.mounts, [mount]);
          initContainers := initContainers[i := k.(own := k.own.(mounts := mounts))];
        }
        assert initContainers[i] == done[i];
      }
    }

    /** The container upserts of the transform, in their order. */
    method UpsertOurContainers(o: Options)
      modifies this`containers, this`initContainers
      ensures containers == UpsertContainers(old(containers), Managed(o))
      ensures initContainers == UpsertContainers(old(initContainers), o.userInit + o.ourInit)
      ensures Has(containers, MONGODB)
    {
      ghost var was := containers;
      ContainersConcat(initContainers, o.userInit, o.ourInit);
      var args := UpsertArgumentList(o.args, o.userArgs);
      var env := UpsertEach(o.env, NormalAll(o.userEnv));
      var mongodb := Item(MONGODB, o.mongodb.leaves, o.mongodb.own.(args := args, env := env));
      initContainers := UpsertContainerList(initContainers, o.userInit);
      containers := UpsertContainerList(containers, [mongodb]);
      if o.detector.Some? {
        containers := UpsertContainerList(containers, [Item(DETECTOR, o.detector.value.leaves, o.detector.value.own)]);
      }
      ContainersConcat(was, [mongodb], Optional(DETECTOR, o.detector));
      initContainers := UpsertContainerList(initContainers, o.ourInit);
      if o.exporter.Some? {
        containers := UpsertContainerList(containers, [Item(EXPORTER, o.exporter.value.leaves, o.exporter.value.own)]);
      }
      ContainersConcat(was, [mongodb] + Optional(DETECTOR, o.detector), Optional(EXPORTER, o.exporter));
      MongodbIsManaged(o);
      ContainersPresent(was, Managed(o), MONGODB);
    }

    /** Volumes, then the three loops over what is there by now. */
    method EditPodTemplate(o: Options) returns (ok: bool)
      requires Has(containers, MONGODB)
      modifies this`containers, this`initContainers, this`volumes, this`claims
      ensures ok <==> !Panics(o)
      ensures ok ==> containers == Edited(old(containers), ContainerTouch(o))
      ensures ok ==> initContainers == Edited(old(initContainers), InitContainerTouch(o))
      ensures ok ==> volumes == UpsertAll(old(volumes), ManagedVolumes(o))
      ensures ok ==> claims == UpsertAll(old(claims), ManagedClaims(o))
    {
      hide UpsertAll, Edited, Then, EnvTouch, MountTouch, ConfigTouch, InitTouch, NoTouch, Has;
      ghost var cs, inits, vs := containers, initContainers, volumes;
      ghost var touch := EnvTouch(o.rootEnv);
      volumes := UpsertEach(volumes, o.volumes);
      UpsertEnv(o.rootEnv);
      EditedKeepsPresence(cs, touch, MONGODB);
      ok := true;
      if o.isMongos {
        claims := UpsertEach(claims, []);
      } else {
        ok := UpsertDataVolume(o);
        if !ok {
          return;
        }
        EditedInTurn(cs, touch, MountTouch(MONGODB, o.dataMounts));
        touch := Then(touch, MountTouch(MONGODB, o.dataMounts));
      }
      UpsertAllConcat(vs, o.volumes, DataVolumes(o));
      assert o.isMongos ==> o.volumes + DataVolumes(o) == o.volumes;
      assert containers == Edited(cs, touch);
      assert volumes == UpsertAll(vs, o.volumes + DataVolumes(o));
      if o.configSecret.Some? {
        UpsertConfigSecretVolume(o.configSecret.value);
        EditedInTurn(cs, touch, ConfigTouch(o.configSecret.value.path));
        UpsertAllConcat(vs, o.volumes + DataVolumes(o), [o.configSecret.value.volume]);
      } else {
        UntouchedList(inits);
        assert o.volumes + DataVolumes(o) + [] == o.volumes + DataVolumes(o);
      }
    }

    method Transform(o: Options) returns (ok: bool)
      modifies this
      ensures ok <==> o.isMongos || o.storage.Ephemeral? || o.storage.claim.Some?
      ensures ok ==> Value() == Transformed(o, old(Value()))
    {
      hide UpsertAll, UpsertContainers, Edited, ContainerTouch, InitContainerTouch, Managed, Upsert, ManagedVolumes, ManagedClaims, Has;
      ghost var x := Value();
      fields := fields + o.direct;
      SingleUpsert(owners, o.owner);
      owners := UpsertEach(owners, [o.owner]);
      UpsertOurContainers(o);
      ok := EditPodTemplate(o);
      if o.schedulerName.Some? {
        fields := fields[SCHEDULER := o.schedulerName.value];
      }
      assert fields == x.fields + Direct(o);
    }
  }

  lemma MongodbIsManaged(o: Options)
    ensures For(Managed(o), MONGODB) != []
  {
    assert MongodbContainer(o) in Managed(o);
    ForIsThere(Managed(o), MongodbContainer(o));
  }

  lemma SingleUpsert<R>(xs: seq<Item<R>>, u: Item<R>)
    ensures UpsertAll(xs, [u]) == Upsert(xs, u)
  {
    assert Front([u]) == [] && UpsertAll(xs, []) == xs;
  }

  lemma UntouchedList(xs: seq<Container>)
    ensures Edited(xs, NoTouch()) == xs
  {
  }
}
