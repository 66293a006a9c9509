/** Secrets and claims of one MongoDB object over its whole life, as a step system: they are
    created with an owner reference, then a deletion sets or removes owner references according to
    the termination policy, then the finalizer goes and the garbage collector acts. The worker may
    crash anywhere and starts again from a version that is never older than the last one it saw. */
module Offshoots {
  import opened Common
  import WipeOut

  datatype Policy = HaltPolicy | WipeOutPolicy | OtherPolicy

  type Owner = string

  /** The UID of the object this is about. */
  const ME: Owner := "me"
  const NAME := "db"
  const AUTH_SUFFIX := "-auth"
  const KEY_SUFFIX := "-key"

  /** A stored version of the object. */
  datatype Version = Version(
    deleting: bool,
    finalizer: bool,
    policy: Policy,
    authSecret: Option<string>,
    keyFileSecret: Option<string>,
    keyFileRequired: bool)

  /** `ours` says whether the labels name this database. */
  datatype Secret = Secret(ours: bool, managedBy: Option<string>, owners: set<Owner>, content: nat)

  datatype Claim = Claim(matches: bool, owners: set<Owner>)

  datatype CreatePc = AddFinalizer | CheckAuth | CreateAuth | PatchAuth | CheckKey | CreateKey | PatchKey
  datatype EndPc = FreeClaims | FreeSecrets | WipeSecrets | OwnClaims | RemoveFinalizer

  datatype Pc = Idle | Creating(create: CreatePc) | Ending(end: EndPc)

  /** The worker's copy, the version it stems from, and the claims and the secrets it has given an
      owner. */
  datatype Worker = Worker(pc: Pc, obj: Version, base: nat, handled: set<string>, wiped: set<string>)

  datatype Found = Absent | Ours | Foreign

  datatype Note =
    | Checked(secret: string, found: Found)
    | Created(secret: string, content: nat)
    | Referenced(secret: string)
    /** A wipe-out over this listing found these secrets and gave the ones named an owner. */
    | WipedOut(snapshot: Version, databases: seq<WipeOut.Database>, before: map<string, Secret>, names: set<string>)
    /** The finalizer is removed by a run that began at this version. */
    | Released(base: nat, snapshot: Version, secrets: map<string, Secret>, claims: map<string, Claim>,
               handled: set<string>, wiped: set<string>)

  datatype State = State(
    hist: seq<Version>,
    seen: nat,
    alive: bool,
    secrets: map<string, Secret>,
    claims: map<string, Claim>,
    worker: Worker,
    log: seq<Note>)

  datatype Reply =
    | Read(version: nat)
    | Ok
    | Fail
    /** A new secret with this content. */
    | Made(content: nat)
    /** The patches of these items went through, then one failed. */
    | Partly(done: set<string>)
    /** The peers listed in the namespace; patching stopped early if only some items went through. */
    | Peers(databases: seq<WipeOut.Database>)
    | PeersPartly(databases: seq<WipeOut.Database>, done: set<string>)

  datatype Event =
    | Act(reply: Reply)
    | Crash
    | Edit(policy: Policy, authSecret: Option<string>, keyFileSecret: Option<string>)
    | RequestDeletion
    | SecretAppears(name: string, secret: Secret)
    | SecretDeleted(name: string)
    | ClaimAppears(name: string, claim: Claim)
    | ClaimDeleted(name: string)
    /** The garbage collector looks at everything. */
    | Collect

  /* ---------- helpers ---------- */

  function Current(s: State): Version
    requires s.hist != []
  {
    Last(s.hist)
  }

  function At(s: State, pc: Pc): State {
    s.(worker := s.worker.(pc := pc))
  }

  function Noted(s: State, note: Note): State {
    s.(log := s.log + [note])
  }

  function Patched(s: State, v: Version): State
    requires s.hist != []
  {
    if v == Current(s) then s else s.(hist := s.hist + [v])
  }

  function Persistent(v: Version): set<string> {
    (if v.authSecret.Some? then {v.authSecret.value} else {}) + (if v.keyFileSecret.Some? then {v.keyFileSecret.value} else {})
  }

  function PersistentList(v: Version): seq<string> {
    (if v.authSecret.Some? then [v.authSecret.value] else []) + (if v.keyFileSecret.Some? then [v.keyFileSecret.value] else [])
  }

  function AuthName(): string {
    NAME + AUTH_SUFFIX
  }

  function KeyName(v: Version): string {
    if v.keyFileSecret.Some? && v.keyFileSecret.value != [] then v.keyFileSecret.value else NAME + KEY_SUFFIX
  }

  function Look(s: State, name: string): Found {
    if name !in s.secrets then Absent else if s.secrets[name].ours then Ours else Foreign
  }

  function OwnSecret(s: Secret, yes: bool): Secret {
    s.(owners := if yes then s.owners + {ME} else s.owners - {ME})
  }

  function OwnClaim(c: Claim, yes: bool): Claim {
    c.(owners := if yes then c.owners + {ME} else c.owners - {ME})
  }

  function WithSecrets(secrets: map<string, Secret>, names: set<string>, yes: bool): map<string, Secret> {
    map n | n in secrets :: if n in names then OwnSecret(secrets[n], yes) else secrets[n]
  }

  function WithClaims(claims: map<string, Claim>, names: set<string>, yes: bool): map<string, Claim> {
    map n | n in claims :: if n in names && claims[n].matches then OwnClaim(claims[n], yes) else claims[n]
  }

  function Matching(claims: map<string, Claim>): set<string> {
    set n | n in claims && claims[n].matches
  }

  /* ---------- the worker ---------- */

  function FirstEnd(policy: Policy): EndPc {
    match policy
    case HaltPolicy => FreeClaims
    case WipeOutPolicy => WipeSecrets
    case OtherPolicy => FreeSecrets
  }

  function Begin(s: State, reply: Reply): State
    requires s.hist != []
  {
    if reply.Read? && s.seen <= reply.version < |s.hist| then
      var v := s.hist[reply.version];
      var pc := if !v.deleting then Creating(AddFinalizer) else if v.finalizer then Ending(FirstEnd(v.policy)) else Idle;
      s.(seen := reply.version, worker := Worker(pc, v, reply.version, {}, {}))
    else s
  }

  /** ensureAuthSecret and ensureKeyFileSecret: check, create, patch the reference. */
  function CreateStep(s: State, reply: Reply): State
    requires s.hist != []
  {
    var w := s.worker;
    if w.pc == Creating(AddFinalizer) then FinalizerStep(s, reply)
    else if w.pc == Creating(CheckAuth) && w.obj.authSecret.Some? then At(s, Creating(CheckKey))
    else if w.pc == Creating(CheckAuth) && reply == Ok then CheckStep(s, AuthName(), Creating(CreateAuth), Creating(PatchAuth))
    else if w.pc == Creating(CreateAuth) && reply.Made? then MakeStep(s, AuthName(), reply.content, Creating(PatchAuth))
    else if w.pc == Creating(PatchAuth) && reply == Ok && s.alive then AuthStep(s)
    else if w.pc == Creating(CheckKey) && w.obj.keyFileRequired && reply == Ok then
      CheckStep(s, KeyName(w.obj), Creating(CreateKey), Creating(PatchKey))
    else if w.pc == Creating(CreateKey) && reply.Made? then MakeStep(s, KeyName(w.obj), reply.content, Creating(PatchKey))
    else if w.pc == Creating(PatchKey) && reply == Ok && s.alive then KeyStep(s)
    else At(s, Idle)
  }

  function FinalizerStep(s: State, reply: Reply): State
    requires s.hist != []
  {
    if s.worker.obj.finalizer then At(s, Creating(CheckAuth))
    else if reply == Ok && s.alive && !Current(s).deleting then
      // the copy is from here on what the API returned
      var v := Current(s).(finalizer := true);
      var t := Patched(s, v);
      t.(worker := s.worker.(pc := Creating(CheckAuth), obj := v, base := |t.hist| - 1))
    else At(s, Idle)
  }

  function AuthStep(s: State): State
    requires s.hist != []
  {
    Noted(Patched(s, Current(s).(authSecret := Some(AuthName()))), Referenced(AuthName()))
      .(worker := s.worker.(pc := Creating(CheckKey), obj := s.worker.obj.(authSecret := Some(AuthName()))))
  }

  function KeyStep(s: State): State
    requires s.hist != []
  {
    var name := KeyName(s.worker.obj);
    At(Noted(Patched(s, Current(s).(keyFileSecret := Some(name))), Referenced(name)), Idle)
  }

  /** checkSecret: absent is fine, foreign labels are an error. */
  function CheckStep(s: State, name: string, create: Pc, patch: Pc): State {
    var found := Look(s, name);
    At(Noted(s, Checked(name, found)), if found == Absent then create else if found == Ours then patch else Idle)
  }

  /** The API refuses to create what is there already. */
  function MakeStep(s: State, name: string, content: nat, next: Pc): State {
    if name in s.secrets then At(s, Idle)
    else
      At(Noted(s.(secrets := s.secrets[name := Secret(true, Some(WipeOut.KUBEDB), {ME}, content)]), Created(name, content)), next)
  }

  /** The secrets a WipeOut gives an owner: its own module says which. */
  function Seen(secrets: map<string, Secret>): map<string, WipeOut.Secret> {
    map n | n in secrets :: WipeOut.Secret(secrets[n].managedBy, secrets[n].owners)
  }

  function Wiped(s: State, databases: seq<WipeOut.Database>): set<string> {
    set n | n in s.secrets && WipeOut.Doomed(NAME, databases, PersistentList(s.worker.obj), Seen(s.secrets), n)
  }

  function WipeStep(s: State, databases: seq<WipeOut.Database>, names: set<string>): State {
    Noted(s.(secrets := WithSecrets(s.secrets, names, true)), WipedOut(s.worker.obj, databases, s.secrets, names))
      .(worker := s.worker.(pc := Ending(OwnClaims), wiped := names))
  }

  /** terminate, then the finalizer. */
  function EndStep(s: State, reply: Reply): State
    requires s.hist != []
  {
    var w := s.worker;
    if w.pc == Ending(FreeClaims) && reply == Ok then
      At(s.(claims := WithClaims(s.claims, Matching(s.claims), false)), Ending(FreeSecrets))
    else if w.pc == Ending(FreeClaims) && reply.Partly? then At(s.(claims := WithClaims(s.claims, reply.done, false)), Idle)
    else if w.pc == Ending(FreeSecrets) && reply == Ok then
      At(s.(secrets := WithSecrets(s.secrets, Persistent(w.obj), false)),
         Ending(if w.obj.policy == HaltPolicy then RemoveFinalizer else OwnClaims))
    else if w.pc == Ending(FreeSecrets) && reply.Partly? then
      At(s.(secrets := WithSecrets(s.secrets, Persistent(w.obj) * reply.done, false)), Idle)
    else if w.pc == Ending(WipeSecrets) && reply.Peers? then
      WipeStep(s, reply.databases, Wiped(s, reply.databases))
    else if w.pc == Ending(WipeSecrets) && reply.PeersPartly? then
      At(s.(secrets := WithSecrets(s.secrets, Wiped(s, reply.databases) * reply.done, true)), Idle)
    else if w.pc == Ending(OwnClaims) && reply == Ok then
      s.(claims := WithClaims(s.claims, Matching(s.claims), true),
         worker := w.(pc := Ending(RemoveFinalizer), handled := Matching(s.claims)))
    else if w.pc == Ending(OwnClaims) && reply.Partly? then At(s.(claims := WithClaims(s.claims, reply.done, true)), Idle)
    else if w.pc == Ending(RemoveFinalizer) && reply == Ok && s.alive then
      At(Noted(Patched(s, Current(s).(finalizer := false)), Released(w.base, w.obj, s.secrets, s.claims, w.handled, w.wiped))
           .(alive := false), Idle)
    else At(s, Idle)
  }

  function Step(s: State, reply: Reply): State
    requires s.hist != []
  {
    match s.worker.pc
    case Idle => Begin(s, reply)
    case Creating(_) => CreateStep(s, reply)
    case Ending(_) => EndStep(s, reply)
  }

  /* ---------- everybody else ---------- */

  /** Owned by an object that is gone, and by nothing else. */
  predicate Orphaned(s: State, owners: set<Owner>) {
    !s.alive && owners == {ME}
  }

  /** What is gone is not what the worker gave an owner, should its name come back. */
  function Forgetting(s: State): State {
    s.(worker := s.worker.(handled := s.worker.handled * s.claims.Keys, wiped := s.worker.wiped * s.secrets.Keys))
  }

  function OutsideStep(s: State, e: Event): State
    requires s.hist != []
  {
    match e
    case Edit(policy, auth, key) =>
      if s.alive then Patched(s, Current(s).(policy := policy, authSecret := auth, keyFileSecret := key)) else s
    case RequestDeletion =>
      if s.alive then Patched(s, Current(s).(deleting := true)).(alive := Current(s).finalizer) else s
    case SecretAppears(n, x) => if n in s.secrets || ME in x.owners then s else s.(secrets := s.secrets[n := x])
    case SecretDeleted(n) => Forgetting(s.(secrets := s.secrets - {n}))
    case ClaimAppears(n, c) => if n in s.claims || ME in c.owners then s else s.(claims := s.claims[n := c])
    case ClaimDeleted(n) => Forgetting(s.(claims := s.claims - {n}))
    case Collect =>
      Forgetting(s.(secrets := map n | n in s.secrets && !Orphaned(s, s.secrets[n].owners) :: s.secrets[n],
                    claims := map n | n in s.claims && !Orphaned(s, s.claims[n].owners) :: s.claims[n]))
    case _ => s
  }

  function Apply(s: State, e: Event): State {
    if s.hist == [] then s
    else match e
      case Act(reply) => Step(s, reply)
      case Crash => At(s, Idle)
      case _ => OutsideStep(s, e)
  }

  function Run(s: State, events: seq<Event>): State {
    if events == [] then s else Apply(Run(s, Front(events)), Last(events))
  }

  lemma {:induction false} RunConcat(s: State, a: seq<Event>, b: seq<Event>)
    ensures Run(s, a + b) == Run(Run(s, a), b)
  {
    hide Apply;
    if b == [] {
      assert a + b == a;
    } else {
      RunConcat(s, a, Front(b));
      assert Front(a + b) == a + Front(b) && Last(a + b) == Last(b);
    }
  }

  lemma RunOne(s: State, a: seq<Event>, e: Event)
    ensures Run(s, a + [e]) == Apply(Run(s, a), e)
  {
    hide Apply;
    assert Front(a + [e]) == a && Last(a + [e]) == e;
  }

  /** A new object; secrets and claims of others may be around, none of them owned by it. */
  ghost predicate Start(s: State) {
    && s.hist != [] && s.seen == 0 && s.alive && s.worker.pc == Idle && s.log == []
    && !s.hist[0].deleting && |s.hist| == 1
    && (forall n <- s.secrets :: ME !in s.secrets[n].owners)
    && (forall n <- s.claims :: ME !in s.claims[n].owners)
  }
}
