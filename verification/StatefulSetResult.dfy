/** What the StatefulSet transform makes of the object, told without the functions it is made of:
    for any object and any options, what was asked for stands in the result. */
module StatefulSetResult {
  import opened Common
  import opened Upserts
  import opened StatefulSetTransform

  /* ---------- lists ---------- */

  ghost predicate IsFirstNamed<R>(xs: seq<Item<R>>, k: int) {
    0 <= k < |xs| && forall j | 0 <= j < k :: xs[j].name != xs[k].name
  }

  ghost predicate IsLastNamed<R>(us: seq<Item<R>>, i: int) {
    0 <= i < |us| && forall j | i < j < |us| :: us[j].name != us[i].name
  }

  /** Every leaf of the update is there, with the update's value. */
  ghost predicate CarriesLeaves<R>(x: Item<R>, u: Item<R>) {
    forall f <- u.leaves :: f in x.leaves && x.leaves[f] == u.leaves[f]
  }

  /** The first entry of that name is what the update says. */
  ghost predicate Stands<R>(xs: seq<Item<R>>, u: Item<R>) {
    exists k :: IsFirstNamed(xs, k) && xs[k].name == u.name && xs[k].own == u.own && CarriesLeaves(xs[k], u)
  }

  ghost predicate Names<R>(us: seq<Item<R>>, name: Name) {
    exists u <- us :: u.name == name
  }

  lemma {:induction false} ForEndsWithLast<R>(us: seq<Item<R>>, i: nat)
    requires IsLastNamed(us, i)
    ensures For(us, us[i].name) != [] && Last(For(us, us[i].name)) == us[i]
  {
    if i < |us| - 1 {
      assert IsLastNamed(Front(us), i) && Front(us)[i] == us[i];
      ForEndsWithLast(Front(us), i);
      assert Last(us).name != us[i].name;
    }
  }

  lemma {:induction false} UnionEndsWithLast<R>(us: seq<Item<R>>, f: Field)
    requires us != [] && f in Last(us).leaves
    ensures f in Union(us) && Union(us)[f] == Last(us).leaves[f]
  {
  }

  lemma LookStands<R>(xs: seq<Item<R>>, x: Item<R>, u: Item<R>)
    requires Look(xs, u.name) == Some(x) && x.own == u.own && CarriesLeaves(x, u)
    ensures Stands(xs, u)
  {
    assert IsFirstNamed(xs, IndexOf(xs, u.name));
  }

  /** The last update of a name stands after a series of upserts. */
  lemma UpsertedStands<R>(xs: seq<Item<R>>, us: seq<Item<R>>, i: int)
    requires IsLastNamed(us, i)
    ensures Stands(UpsertAll(xs, us), us[i])
  {
    var u := us[i];
    var mine := For(us, u.name);
    ForEndsWithLast(us, i);
    UpsertAllLook(xs, us, u.name);
    FoldedInClosedForm(Look(xs, u.name), mine, u.name);
    var x := Look(UpsertAll(xs, us), u.name).value;
    forall f | f in u.leaves
      ensures f in x.leaves && x.leaves[f] == u.leaves[f]
    {
      UnionEndsWithLast(mine, f);
    }
    LookStands(UpsertAll(xs, us), x, u);
  }

  lemma {:induction false} NotNamedNotFor<R>(us: seq<Item<R>>, name: Name)
    requires !Names(us, name)
    ensures For(us, name) == []
  {
    if us != [] {
      assert Last(us).name != name;
      assert !Names(Front(us), name) by {
        assert forall u :: u in Front(us) ==> u in us;
      }
      NotNamedNotFor(Front(us), name);
    }
  }

  /** Names nobody updates look as before. */
  lemma UnnamedLooksAsBefore<R>(xs: seq<Item<R>>, us: seq<Item<R>>, name: Name)
    requires !Names(us, name)
    ensures Look(UpsertAll(xs, us), name) == Look(xs, name)
  {
    NotNamedNotFor(us, name);
    UpsertAllLook(xs, us, name);
  }

  lemma StandingLooks<R>(xs: seq<Item<R>>, ys: seq<Item<R>>, u: Item<R>)
    requires Stands(xs, u) && Look(ys, u.name) == Look(xs, u.name)
    ensures Stands(ys, u)
  {
    var k :| IsFirstNamed(xs, k) && xs[k].name == u.name && xs[k].own == u.own && CarriesLeaves(xs[k], u);
    assert IndexOf(xs, u.name) == k;
    LookStands(ys, xs[k], u);
  }

  /* ---------- environments ---------- */

  /** The variable with the API version of its reference filled in. */
  function Filled(e: EnvVar): EnvVar {
    Item(e.name, e.leaves,
         EnvValue(e.own.content, match e.own.ref case Unversioned(path) => Versioned(path, V1) case r => r))
  }

  lemma FilledIsNormal(e: EnvVar)
    ensures Normal(e) == Filled(e) && Normal(Filled(e)) == Filled(e)
  {
  }

  lemma LastStaysLast(us: seq<EnvVar>, i: int)
    requires IsLastNamed(us, i)
    ensures IsLastNamed(NormalAll(us), i) && NormalAll(us)[i] == Filled(us[i])
  {
    FilledIsNormal(us[i]);
    forall j | i < j < |us|
      ensures NormalAll(us)[j].name != NormalAll(us)[i].name
    {
      assert NormalAll(us)[j].name == us[j].name;
    }
  }

  lemma EnvUpsertStands(vars: seq<EnvVar>, us: seq<EnvVar>, i: int)
    requires IsLastNamed(us, i)
    ensures Stands(UpsertEnvVars(vars, us), Filled(us[i]))
  {
    LastStaysLast(us, i);
    UpsertedStands(vars, NormalAll(us), i);
  }

  lemma NormalizedStands(vars: seq<EnvVar>, e: EnvVar)
    requires Stands(vars, Filled(e))
    ensures Stands(NormalAll(vars), Filled(e))
  {
    var u := Filled(e);
    FilledIsNormal(e);
    var k :| IsFirstNamed(vars, k) && vars[k].name == u.name && vars[k].own == u.own && CarriesLeaves(vars[k], u);
    var all := NormalAll(vars);
    assert all[k] == Normal(vars[k]);
    assert forall j | 0 <= j < k :: all[j].name == vars[j].name;
    assert IsFirstNamed(all, k);
  }

  lemma NamesOfNormal(us: seq<EnvVar>, name: Name)
    ensures Names(NormalAll(us), name) <==> Names(us, name)
  {
    var all := NormalAll(us);
    if Names(us, name) {
      var u :| u in us && u.name == name;
      var i :| 0 <= i < |us| && us[i] == u;
      assert all[i] in all && all[i].name == name;
    }
    if Names(all, name) {
      var u :| u in all && u.name == name;
      var i :| 0 <= i < |all| && all[i] == u;
      assert us[i] in us && us[i].name == name;
    }
  }

  lemma EnvOthersStand(vars: seq<EnvVar>, us: seq<EnvVar>, e: EnvVar)
    requires Stands(vars, Filled(e)) && !Names(us, e.name)
    ensures Stands(UpsertEnvVars(vars, us), Filled(e))
  {
    NamesOfNormal(us, e.name);
    UnnamedLooksAsBefore(vars, NormalAll(us), e.name);
    StandingLooks(vars, UpsertEnvVars(vars, us), Filled(e));
  }

  /* ---------- containers ---------- */

  /** The first container of a name the updates give: the last of these updates, touched. */
  lemma PassedContainer(cs: seq<Container>, us: seq<Container>, g: Touch, i: int) returns (k: nat, own: Replaced)
    requires IsLastNamed(us, i)
    ensures var r := Pass(cs, us, g);
            IsFirstNamed(r, k) && r[k].name == us[i].name && r[k].own == g(us[i].name, own, true) && CarriesLeaves(r[k], us[i])
    ensures own == us[i].own || own == NormalOwn(us[i].own)
  {
    hide UpsertContainers, NormalOwn;
    var u, mine := us[i], For(us, us[i].name);
    ForEndsWithLast(us, i);
    ContainersLook(cs, us, u.name);
    FoldedContainerInClosedForm(Look(cs, u.name), mine, u.name);
    var u1 := UpsertContainers(cs, us);
    var c := Look(u1, u.name).value;
    EditedKeepsNames(u1, g, u.name);
    k, own := IndexOf(u1, u.name), c.own;
    var r := Edited(u1, g);
    assert forall j | 0 <= j < |r| :: r[j].name == u1[j].name;
    forall f | f in u.leaves
      ensures f in c.leaves && c.leaves[f] == u.leaves[f]
    {
      UnionEndsWithLast(mine, f);
    }
  }

  lemma DatabaseTouch(o: Options, own: Replaced)
    ensures var r := ContainerTouch(o)(MONGODB, own, true);
            && r.command == own.command && r.devices == own.devices
            && r.env == UpsertEnvVars(own.env, o.rootEnv)
            && r.mounts == (if o.isMongos then own.mounts else UpsertAll(own.mounts, o.dataMounts))
            && r.args == if o.configSecret.None? then own.args else UpsertArgs(own.args, [Flag(CONFIG_FLAG, o.configSecret.value.path)])
  {
    hide UpsertEnvVars, UpsertAll, UpsertArgs;
  }

  /** What a user and the operator asked for in the container that runs the database. */
  ghost predicate IsDatabaseContainer(o: Options, c: Container) {
    && c.name == MONGODB && c.own.command == o.mongodb.own.command && c.own.devices == o.mongodb.own.devices
    && (forall f <- o.mongodb.leaves :: f in c.leaves && c.leaves[f] == o.mongodb.leaves[f])
    // mounts: data, configuration and init scripts unless it is mongos
    && (o.isMongos ==> c.own.mounts == o.mongodb.own.mounts)
    && (!o.isMongos ==> forall i | IsLastNamed(o.dataMounts, i) :: Stands(c.own.mounts, o.dataMounts[i]))
    // arguments: the configuration file of the secret, else the user's, else the operator's
    && (o.configSecret.Some? ==> ValueOf(c.own.args, "--config") == Some(o.configSecret.value.path))
    && (forall flag: string | flag != "--config" || o.configSecret.None? ::
          ValueOf(c.own.args, flag) == if ValueOf(o.userArgs, flag).Some? then ValueOf(o.userArgs, flag) else ValueOf(o.args, flag))
    // environment: credentials, else the user's, else the operator's
    && (forall i | IsLastNamed(o.rootEnv, i) :: Stands(c.own.env, Filled(o.rootEnv[i])))
    && (forall i | IsLastNamed(o.userEnv, i) && !Names(o.rootEnv, o.userEnv[i].name) :: Stands(c.own.env, Filled(o.userEnv[i])))
  }

  lemma ArgumentsAre(o: Options, args: seq<Arg>)
    requires args == UpsertArgs(o.args, o.userArgs)
    ensures var r := if o.configSecret.None? then args else UpsertArgs(args, [Flag(CONFIG_FLAG, o.configSecret.value.path)]);
            && (o.configSecret.Some? ==> ValueOf(r, "--config") == Some(o.configSecret.value.path))
            && (forall flag: string | flag != "--config" || o.configSecret.None? ::
                  ValueOf(r, flag) == if ValueOf(o.userArgs, flag).Some? then ValueOf(o.userArgs, flag) else ValueOf(o.args, flag))
  {
    hide UpsertArgs;
    forall flag
      ensures ValueOf(args, flag) == if ValueOf(o.userArgs, flag).Some? then ValueOf(o.userArgs, flag) else ValueOf(o.args, flag)
    {
      OverridesWin(o.args, o.userArgs, flag);
    }
    if o.configSecret.Some? {
      var config := [Flag(CONFIG_FLAG, o.configSecret.value.path)];
      forall flag {:trigger ValueOf(config, flag)}
        ensures ValueOf(config, flag) == if flag == CONFIG_FLAG then Some(o.configSecret.value.path) else None
        ensures ValueOf(UpsertArgs(args, config), flag) == if ValueOf(config, flag).Some? then ValueOf(config, flag) else ValueOf(args, flag)
      {
        LastFlagIs(config, flag, if flag == CONFIG_FLAG then 0 else -1);
        OverridesWin(args, config, flag);
      }
      assert ValueOf(config, "--config") == Some(o.configSecret.value.path);
      forall flag: string | flag != "--config"
        ensures ValueOf(UpsertArgs(args, config), flag) == ValueOf(args, flag)
      {
        assert ValueOf(config, flag) == None;
      }
    }
  }

  lemma EnvironmentIs(o: Options, env: seq<EnvVar>, i: int)
    requires env == UpsertEnvVars(o.env, o.userEnv) || env == NormalAll(UpsertEnvVars(o.env, o.userEnv))
    ensures IsLastNamed(o.rootEnv, i) ==> Stands(UpsertEnvVars(env, o.rootEnv), Filled(o.rootEnv[i]))
    ensures IsLastNamed(o.userEnv, i) && !Names(o.rootEnv, o.userEnv[i].name) ==>
              Stands(UpsertEnvVars(env, o.rootEnv), Filled(o.userEnv[i]))
  {
    hide UpsertEnvVars, NormalAll, Stands;
    if IsLastNamed(o.rootEnv, i) {
      EnvUpsertStands(env, o.rootEnv, i);
    }
    if IsLastNamed(o.userEnv, i) && !Names(o.rootEnv, o.userEnv[i].name) {
      EnvUpsertStands(o.env, o.userEnv, i);
      NormalizedStands(UpsertEnvVars(o.env, o.userEnv), o.userEnv[i]);
      EnvOthersStand(env, o.rootEnv, o.userEnv[i]);
    }
  }

  lemma MountsAre(o: Options, mounts: seq<Mount>)
    ensures forall i | IsLastNamed(o.dataMounts, i) :: Stands(UpsertAll(mounts, o.dataMounts), o.dataMounts[i])
  {
    forall i | IsLastNamed(o.dataMounts, i)
      ensures Stands(UpsertAll(mounts, o.dataMounts), o.dataMounts[i])
    {
      UpsertedStands(mounts, o.dataMounts, i);
    }
  }

  lemma TouchedIsDatabase(o: Options, own: Replaced, c: Container)
    requires own == MongodbContainer(o).own || own == NormalOwn(MongodbContainer(o).own)
    requires c.name == MONGODB && c.own == ContainerTouch(o)(MONGODB, own, true) && CarriesLeaves(c, MongodbContainer(o))
    ensures IsDatabaseContainer(o, c)
  {
    DatabaseTouch(o, own);
    hide UpsertEnvVars, UpsertAll, UpsertArgs, Stands, IsLastNamed, ValueOf, ContainerTouch, NormalAll, Names;
    ArgumentsAre(o, own.args);
    MountsAre(o, own.mounts);
    forall i {
      EnvironmentIs(o, own.env, i);
    }
  }

  lemma ManagedAreLastNamed(o: Options)
    ensures var us := Managed(o);
            && IsLastNamed(us, 0) && us[0] == MongodbContainer(o) && us[0].name == MONGODB
            && (o.detector.Some? ==> IsLastNamed(us, 1) && us[1] == Item(DETECTOR, o.detector.value.leaves, o.detector.value.own))
            && (o.exporter.Some? ==> IsLastNamed(us, |us| - 1)
                                     && us[|us| - 1] == Item(EXPORTER, o.exporter.value.leaves, o.exporter.value.own))
  {
    hide UpsertArgs, UpsertEnvVars;
  }

  /** For any object and any options the result runs the database as asked for. */
  lemma DatabaseContainerIsThere(o: Options, x: StatefulSet) returns (k: nat)
    ensures var y := Transformed(o, x);
            IsFirstNamed(y.containers, k) && IsDatabaseContainer(o, y.containers[k])
  {
    var own;
    ManagedAreLastNamed(o);
    hide Pass, Managed, ContainerTouch, MongodbContainer, IsDatabaseContainer, CarriesLeaves, NormalOwn;
    k, own := PassedContainer(x.containers, Managed(o), ContainerTouch(o), 0);
    TouchedIsDatabase(o, own, Transformed(o, x).containers[k]);
  }

  lemma LaterTouch(o: Options, own: Replaced)
    ensures ContainerTouch(o)(MONGODB, own, false).mounts == own.mounts
  {
    hide UpsertEnvVars, UpsertAll, UpsertArgs;
  }

  /** Only the first container of that name gets mounts: another one found there keeps its own. */
  lemma LaterContainersKeepMounts(o: Options, x: StatefulSet, k: nat)
    requires k < |x.containers| && x.containers[k].name == MONGODB && !IsFirstNamed(x.containers, k)
    ensures var y := Transformed(o, x);
            k < |y.containers| && y.containers[k].name == MONGODB && y.containers[k].own.mounts == x.containers[k].own.mounts
  {
    var u1 := UpsertContainers(x.containers, Managed(o));
    hide UpsertContainers, Managed, ContainerTouch;
    ContainersSpare(x.containers, Managed(o));
    FirstStaysFirst(x.containers, u1, MONGODB);
    LaterTouch(o, u1[k].own);
  }

  lemma SidecarTouch(o: Options, n: Name, own: Replaced)
    requires n == DETECTOR || n == EXPORTER
    ensures var r := ContainerTouch(o)(n, own, true);
            && r.command == own.command && r.args == own.args && r.mounts == own.mounts && r.devices == own.devices
            && r.env == UpsertEnvVars(own.env, o.rootEnv)
  {
    hide UpsertEnvVars, UpsertAll, UpsertArgs;
  }

  ghost predicate IsSidecar(name: Name, part: Part, c: Container) {
    && c.name == name && c.own.command == part.own.command && c.own.args == part.own.args
    && c.own.mounts == part.own.mounts && c.own.devices == part.own.devices
    && (forall f <- part.leaves :: f in c.leaves && c.leaves[f] == part.leaves[f])
  }

  /** So does the detector with a replica set, and the exporter with monitoring. */
  lemma SidecarsAreThere(o: Options, x: StatefulSet)
    ensures var y := Transformed(o, x);
            && (o.detector.Some? ==> exists k :: IsFirstNamed(y.containers, k) && IsSidecar(DETECTOR, o.detector.value, y.containers[k]))
            && (o.exporter.Some? ==> exists k :: IsFirstNamed(y.containers, k) && IsSidecar(EXPORTER, o.exporter.value, y.containers[k]))
  {
    ManagedAreLastNamed(o);
    hide Pass, Managed, ContainerTouch, MongodbContainer;
    if o.detector.Some? {
      var k, own := PassedContainer(x.containers, Managed(o), ContainerTouch(o), 1);
      SidecarTouch(o, DETECTOR, own);
      assert IsSidecar(DETECTOR, o.detector.value, Transformed(o, x).containers[k]);
    }
    if o.exporter.Some? {
      var k, own := PassedContainer(x.containers, Managed(o), ContainerTouch(o), |Managed(o)| - 1);
      SidecarTouch(o, EXPORTER, own);
      assert IsSidecar(EXPORTER, o.exporter.value, Transformed(o, x).containers[k]);
    }
  }

  lemma OurTouchOnEnv(o: Options, n: Name, own: Replaced, first: bool)
    requires n == MONGODB || n == EXPORTER || n == DETECTOR
    ensures ContainerTouch(o)(n, own, first).env == UpsertEnvVars(own.env, o.rootEnv)
  {
    hide UpsertEnvVars, UpsertAll, UpsertArgs;
  }

  /** Every container of ours, those found there included, has the credentials. */
  lemma CredentialsAreThere(o: Options, x: StatefulSet, k: nat, i: int)
    requires k < |Transformed(o, x).containers| && IsLastNamed(o.rootEnv, i)
    requires Transformed(o, x).containers[k].name in {MONGODB, EXPORTER, DETECTOR}
    ensures Stands(Transformed(o, x).containers[k].own.env, Filled(o.rootEnv[i]))
  {
    var u1 := UpsertContainers(x.containers, Managed(o));
    OurTouchOnEnv(o, u1[k].name, u1[k].own, IsFirst(u1, k));
    EnvUpsertStands(u1[k].own.env, o.rootEnv, i);
  }

  lemma OurTouchOnArgs(o: Options, own: Replaced, first: bool)
    ensures ContainerTouch(o)(MONGODB, own, first).args ==
              if o.configSecret.None? then own.args else UpsertArgs(own.args, [Flag(CONFIG_FLAG, o.configSecret.value.path)])
  {
    hide UpsertEnvVars, UpsertAll, UpsertArgs;
  }

  /** Every container of that name, those found there included, reads the file of the config secret. */
  lemma ConfigFileIsNamedEverywhere(o: Options, x: StatefulSet, k: nat)
    requires o.configSecret.Some? && k < |Transformed(o, x).containers| && Transformed(o, x).containers[k].name == MONGODB
    ensures ValueOf(Transformed(o, x).containers[k].own.args, "--config") == Some(o.configSecret.value.path)
  {
    var u1 := UpsertContainers(x.containers, Managed(o));
    var config := [Flag(CONFIG_FLAG, o.configSecret.value.path)];
    hide UpsertContainers, Managed, ContainerTouch, UpsertArgs;
    OurTouchOnArgs(o, u1[k].own, IsFirst(u1, k));
    LastFlagIs(config, CONFIG_FLAG, 0);
    OverridesWin(u1[k].own.args, config, CONFIG_FLAG);
    assert ValueOf(config, CONFIG_FLAG) == Some(o.configSecret.value.path);
  }

  /** Every installer, those found there included, mounts the config secret. */
  lemma InstallersMountTheSecret(o: Options, x: StatefulSet, k: nat)
    requires o.configSecret.Some? && k < |Transformed(o, x).initContainers|
    requires Transformed(o, x).initContainers[k].name == COPY_CONFIG
    ensures Stands(Transformed(o, x).initContainers[k].own.mounts, o.configSecret.value.mount)
  {
    var u1 := UpsertContainers(x.initContainers, o.userInit + o.ourInit);
    var mount := o.configSecret.value.mount;
    hide UpsertContainers, InitContainerTouch, Stands;
    InitTouchOn(o, COPY_CONFIG, u1[k].own, IsFirst(u1, k));
    assert IsLastNamed([mount], 0);
    UpsertedStands(u1[k].own.mounts, [mount], 0);
  }

  lemma InitTouchOn(o: Options, n: Name, own: Replaced, first: bool)
    ensures var r := InitContainerTouch(o)(n, own, first);
            && r.command == own.command && r.args == own.args && r.env == own.env && r.devices == own.devices
            && r.mounts == if o.configSecret.Some? && n == COPY_CONFIG then UpsertAll(own.mounts, [o.configSecret.value.mount]) else own.mounts
  {
    hide UpsertAll;
  }

  /** Init containers, the user's and ours: the last of each name is there, and our installer mounts
      the config secret. */
  lemma InitContainersAreThere(o: Options, x: StatefulSet, i: int) returns (k: nat)
    requires IsLastNamed(o.userInit + o.ourInit, i)
    ensures var u, inits := (o.userInit + o.ourInit)[i], Transformed(o, x).initContainers;
            && IsFirstNamed(inits, k) && inits[k].name == u.name && CarriesLeaves(inits[k], u)
            && inits[k].own.command == u.own.command && inits[k].own.args == u.own.args && inits[k].own.devices == u.own.devices
            && (inits[k].own.env == u.own.env || inits[k].own.env == NormalAll(u.own.env))
            && (u.name != COPY_CONFIG || o.configSecret.None? ==> inits[k].own.mounts == u.own.mounts)
            && (u.name == COPY_CONFIG && o.configSecret.Some? ==> Stands(inits[k].own.mounts, o.configSecret.value.mount))
  {
    var own;
    hide Pass, InitContainerTouch, Stands, CarriesLeaves;
    var us := o.userInit + o.ourInit;
    k, own := PassedContainer(x.initContainers, us, InitContainerTouch(o), i);
    InitTouchOn(o, us[i].name, own, true);
    if o.configSecret.Some? {
      var mount := o.configSecret.value.mount;
      assert IsLastNamed([mount], 0);
      UpsertedStands(own.mounts, [mount], 0);
    }
  }

  /* ---------- everything else ---------- */

  /** Volumes, in the order of precedence from the last to the first: the config secret's, the data
      volume of ephemeral storage, the configuration directory, what the pod template asks for. */
  lemma VolumesAreThere(o: Options, x: StatefulSet, i: int)
    ensures var asked := o.volumes
                         + (if o.isMongos then [] else [o.configVolume])
                         + (if !o.isMongos && o.storage.Ephemeral? then [o.storage.volume] else [])
                         + (if o.configSecret.Some? then [o.configSecret.value.volume] else []);
            IsLastNamed(asked, i) ==> Stands(Transformed(o, x).volumes, asked[i])
  {
    var asked := o.volumes
                 + (if o.isMongos then [] else [o.configVolume])
                 + (if !o.isMongos && o.storage.Ephemeral? then [o.storage.volume] else [])
                 + (if o.configSecret.Some? then [o.configSecret.value.volume] else []);
    assert asked == ManagedVolumes(o);
    hide ManagedVolumes, Stands, Pass;
    if IsLastNamed(asked, i) {
      UpsertedStands(x.volumes, asked, i);
    }
  }

  /** The claim of durable storage, the owner, and the fields written as they are. */
  lemma ClaimOwnerAndFieldsAreThere(o: Options, x: StatefulSet)
    ensures var y := Transformed(o, x);
            && (!o.isMongos && o.storage.Durable? && o.storage.claim.Some? ==> Stands(y.claims, o.storage.claim.value))
            && Stands(y.owners, o.owner)
            && (o.schedulerName.Some? ==> SCHEDULER in y.fields && y.fields[SCHEDULER] == o.schedulerName.value)
            && (forall f <- o.direct | f != SCHEDULER || o.schedulerName.None? :: f in y.fields && y.fields[f] == o.direct[f])
  {
    hide Pass, Stands;
    if !o.isMongos && o.storage.Durable? && o.storage.claim.Some? {
      assert IsLastNamed([o.storage.claim.value], 0);
      UpsertedStands(x.claims, [o.storage.claim.value], 0);
    }
    assert IsLastNamed([o.owner], 0);
    UpsertedStands(x.owners, [o.owner], 0);
    SingleUpsert(x.owners, o.owner);
  }
}
