/** What becomes of secrets and claims, over every run: what is owned when the finalizer goes, what
    outlives the object, and that secrets are made once and never rewritten or taken over. */
module OffshootSafety {
  import opened Common
  import opened Offshoots
  import WipeOut

  /* ---------- ownership while terminating ---------- */

  ghost predicate ClaimsFreed(claims: map<string, Claim>) {
    forall n <- claims | claims[n].matches :: ME !in claims[n].owners
  }

  ghost predicate SecretsFreed(secrets: map<string, Secret>, v: Version) {
    forall n <- secrets | v.authSecret == Some(n) || v.keyFileSecret == Some(n) :: ME !in secrets[n].owners
  }

  ghost predicate ClaimsOwned(claims: map<string, Claim>, handled: set<string>) {
    forall n <- claims | n in handled && claims[n].matches :: ME in claims[n].owners
  }

  ghost predicate SecretsOwned(secrets: map<string, Secret>, wiped: set<string>) {
    forall n <- secrets | n in wiped :: ME in secrets[n].owners
  }

  /** What the policy of the run asks for, once it is about to remove the finalizer. */
  ghost predicate Outcome(v: Version, secrets: map<string, Secret>, claims: map<string, Claim>,
                          handled: set<string>, wiped: set<string>) {
    match v.policy
    case HaltPolicy => ClaimsFreed(claims) && SecretsFreed(secrets, v)
    case OtherPolicy => SecretsFreed(secrets, v) && ClaimsOwned(claims, handled)
    case WipeOutPolicy => SecretsOwned(secrets, wiped) && ClaimsOwned(claims, handled)
  }

  /** The secrets a wipe-out is about: those the copy refers to, that KubeDB manages, and that no other
      database in the listing uses. */
  ghost predicate Meant(v: Version, databases: seq<WipeOut.Database>, secrets: map<string, Secret>, n: string) {
    && n in secrets && (v.authSecret == Some(n) || v.keyFileSecret == Some(n))
    && secrets[n].managedBy == Some(WipeOut.KUBEDB)
    && !exists db <- databases :: db.name != NAME && n in db.persistentSecrets
  }

  ghost predicate JustThoseMeant(v: Version, databases: seq<WipeOut.Database>, secrets: map<string, Secret>, names: set<string>) {
    forall n :: n in names <==> Meant(v, databases, secrets, n)
  }

  /** The last thing this attempt did to secrets was a wipe-out on its copy; `wiped` is what is left of
      the secrets it gave an owner. */
  ghost predicate HasWiped(log: seq<Note>, v: Version, wiped: set<string>) {
    log != [] && Last(log).WipedOut? && Last(log).snapshot == v && wiped <= Last(log).names
  }

  ghost function LastNote(log: seq<Note>): Option<Note> {
    if log == [] then None else Some(Last(log))
  }

  /** The name was just found carrying our labels, or just made by us. */
  ghost predicate Ascertained(log: seq<Note>, name: string) {
    var n := LastNote(log);
    n == Some(Checked(name, Ours)) || (n.Some? && n.value.Created? && n.value.secret == name)
  }

  ghost predicate Justified(log: seq<Note>, note: Note) {
    match note
    case Created(name, _) => LastNote(log) == Some(Checked(name, Absent))
    case Referenced(name) => Ascertained(log, name)
    case WipedOut(v, databases, before, names) => JustThoseMeant(v, databases, before, names)
    case Released(_, v, secrets, claims, handled, wiped) =>
      && v.deleting && v.finalizer && Outcome(v, secrets, claims, handled, wiped)
      && (v.policy == WipeOutPolicy ==> HasWiped(log, v, wiped))
    case _ => true
  }

  ghost predicate Sound(log: seq<Note>) {
    forall i | 0 <= i < |log| :: Justified(log[..i], log[i])
  }

  lemma SoundExtends(log: seq<Note>, note: Note)
    requires Sound(log) && Justified(log, note)
    ensures Sound(log + [note])
  {
    var all := log + [note];
    forall i | 0 <= i < |all|
      ensures Justified(all[..i], all[i])
    {
      assert all[..i] == log[..i];
      if i == |log| {
        assert log[..i] == log;
      }
    }
  }

  /* ---------- the invariant ---------- */

  ghost predicate Placed(s: State) {
    var w := s.worker;
    match w.pc
    case Idle => true
    case Creating(pc) =>
      && (pc == CreateAuth ==> LastNote(s.log) == Some(Checked(AuthName(), Absent)))
      && (pc == CreateKey ==> LastNote(s.log) == Some(Checked(KeyName(w.obj), Absent)))
      && (pc == PatchAuth ==> Ascertained(s.log, AuthName()))
      && (pc == PatchKey ==> Ascertained(s.log, KeyName(w.obj)))
    case Ending(pc) =>
      && w.obj.deleting && w.obj.finalizer
      && (pc == FreeClaims ==> w.obj.policy == HaltPolicy)
      && (pc == FreeSecrets ==> w.obj.policy != WipeOutPolicy && (w.obj.policy == HaltPolicy ==> ClaimsFreed(s.claims)))
      && (pc == WipeSecrets ==> w.obj.policy == WipeOutPolicy)
      && (pc == OwnClaims ==> w.obj.policy != HaltPolicy && (w.obj.policy == OtherPolicy ==> SecretsFreed(s.secrets, w.obj)))
      && ((pc == OwnClaims || pc == RemoveFinalizer) && w.obj.policy == WipeOutPolicy ==>
            HasWiped(s.log, w.obj, w.wiped) && SecretsOwned(s.secrets, w.wiped))
      && (pc == RemoveFinalizer ==> Outcome(w.obj, s.secrets, s.claims, w.handled, w.wiped))
  }

  /** The copy says about the policy what its version says. */
  ghost predicate Linked(s: State) {
    var w := s.worker;
    && s.hist != [] && s.seen < |s.hist|
    && (w.pc != Idle ==> s.seen <= w.base < |s.hist| && w.obj.policy == s.hist[w.base].policy && w.handled <= s.claims.Keys && w.wiped <= s.secrets.Keys)
    && (w.pc.Ending? ==> w.base == s.seen)
  }

  ghost predicate Inv(s: State) {
    Linked(s) && Placed(s) && Sound(s.log)
  }

  lemma FreeingFrees(s: State)
    ensures ClaimsFreed(WithClaims(s.claims, Matching(s.claims), false))
    ensures SecretsFreed(WithSecrets(s.secrets, Persistent(s.worker.obj), false), s.worker.obj)
    ensures ClaimsOwned(WithClaims(s.claims, Matching(s.claims), true), Matching(s.claims))
    ensures forall names, yes :: WithClaims(s.claims, names, yes).Keys == s.claims.Keys
    ensures Matching(s.claims) <= s.claims.Keys
  {
  }

  lemma CheckKeepsInv(s: State, name: string, create: Pc, patch: Pc)
    requires Inv(s)
    requires (name == AuthName() && create == Creating(CreateAuth) && patch == Creating(PatchAuth) && s.worker.pc == Creating(CheckAuth))
          || (name == KeyName(s.worker.obj) && create == Creating(CreateKey) && patch == Creating(PatchKey) && s.worker.pc == Creating(CheckKey))
    ensures Inv(CheckStep(s, name, create, patch))
  {
    hide Look, KeyName, AuthName;
    SoundExtends(s.log, Checked(name, Look(s, name)));
  }

  lemma MakeKeepsInv(s: State, name: string, content: nat, next: Pc)
    requires Inv(s)
    requires (name == AuthName() && next == Creating(PatchAuth) && s.worker.pc == Creating(CreateAuth))
          || (name == KeyName(s.worker.obj) && next == Creating(PatchKey) && s.worker.pc == Creating(CreateKey))
    ensures Inv(MakeStep(s, name, content, next))
  {
    hide Look, KeyName, AuthName;
    SoundExtends(s.log, Created(name, content));
  }

  lemma PatchKeepsInv(s: State)
    requires Inv(s)
    ensures s.worker.pc == Creating(PatchAuth) ==> Inv(AuthStep(s))
    ensures s.worker.pc == Creating(PatchKey) ==> Inv(KeyStep(s))
  {
    hide KeyName, AuthName;
    if s.worker.pc == Creating(PatchAuth) {
      SoundExtends(s.log, Referenced(AuthName()));
    }
    if s.worker.pc == Creating(PatchKey) {
      SoundExtends(s.log, Referenced(KeyName(s.worker.obj)));
    }
  }

  lemma FinalizerKeepsInv(s: State, reply: Reply)
    requires Inv(s) && s.worker.pc == Creating(AddFinalizer)
    ensures Inv(FinalizerStep(s, reply))
  {
    hide Sound;
  }

  lemma MoveKeepsInv(s: State, pc: Pc)
    requires Inv(s) && s.worker.pc != Idle
    requires pc == Idle || pc == Creating(CheckKey)
    ensures Inv(At(s, pc))
  {
    hide Sound;
  }

  lemma CreateKeepsInv(s: State, reply: Reply)
    requires Inv(s) && s.worker.pc.Creating?
    ensures Inv(CreateStep(s, reply))
  {
    assert s.hist != [];
    hide Inv, FinalizerStep, AuthStep, KeyStep, CheckStep, MakeStep, KeyName, AuthName;
    MoveKeepsInv(s, Idle);
    match s.worker.pc.create {
      case AddFinalizer => FinalizerKeepsInv(s, reply);
      case CheckAuth =>
        MoveKeepsInv(s, Creating(CheckKey));
        CheckKeepsInv(s, AuthName(), Creating(CreateAuth), Creating(PatchAuth));
      case CreateAuth =>
        if reply.Made? {
          MakeKeepsInv(s, AuthName(), reply.content, Creating(PatchAuth));
        }
      case CheckKey => CheckKeepsInv(s, KeyName(s.worker.obj), Creating(CreateKey), Creating(PatchKey));
      case CreateKey =>
        if reply.Made? {
          MakeKeepsInv(s, KeyName(s.worker.obj), reply.content, Creating(PatchKey));
        }
      case _ => PatchKeepsInv(s);
    }
  }

  /** The set arithmetic over the listing picks exactly the secrets meant. */
  lemma WipedIsMeant(s: State, databases: seq<WipeOut.Database>)
    ensures forall n :: n in Wiped(s, databases) <==> Meant(s.worker.obj, databases, s.secrets, n)
    ensures Wiped(s, databases) <= s.secrets.Keys
  {
  }

  lemma WipeKeepsInv(s: State, databases: seq<WipeOut.Database>)
    requires Inv(s) && s.worker.pc == Ending(WipeSecrets)
    ensures Inv(WipeStep(s, databases, Wiped(s, databases)))
  {
    WipedIsMeant(s, databases);
    var names := Wiped(s, databases);
    WipingOwns(s.secrets, names);
    hide Wiped, Meant, WithSecrets, ClaimsFreed, SecretsFreed, ClaimsOwned, SecretsOwned;
    SoundExtends(s.log, WipedOut(s.worker.obj, databases, s.secrets, names));
  }

  lemma WipingOwns(secrets: map<string, Secret>, names: set<string>)
    ensures SecretsOwned(WithSecrets(secrets, names, true), names)
    ensures WithSecrets(secrets, names, true).Keys == secrets.Keys
  {
  }

  lemma EndKeepsPlaced(s: State, reply: Reply)
    requires Inv(s) && s.worker.pc.Ending? && s.worker.pc != Ending(RemoveFinalizer)
    ensures Inv(EndStep(s, reply))
  {
    if s.worker.pc == Ending(WipeSecrets) && reply.Peers? {
      WipeKeepsInv(s, reply.databases);
    } else {
      hide WithClaims, WithSecrets, Matching, Persistent, ClaimsFreed, SecretsFreed, ClaimsOwned, SecretsOwned, Wiped, WipeStep, Sound;
      FreeingFrees(s);
    }
  }

  lemma ReleaseKeepsInv(s: State, reply: Reply)
    requires Inv(s) && s.worker.pc == Ending(RemoveFinalizer)
    ensures Inv(EndStep(s, reply))
  {
    hide Outcome;
    if reply == Ok && s.alive {
      SoundExtends(s.log, Released(s.worker.base, s.worker.obj, s.secrets, s.claims, s.worker.handled, s.worker.wiped));
    }
  }

  lemma UserKeepsInv(s: State, e: Event)
    requires Inv(s) && (e.Edit? || e.RequestDeletion?)
    ensures Inv(OutsideStep(s, e))
  {
    hide Sound, Ascertained, KeyName, AuthName, Persistent, Outcome, ClaimsFreed, SecretsFreed, ClaimsOwned;
    var s' := OutsideStep(s, e);
    assert forall j | 0 <= j < |s.hist| :: s'.hist[j] == s.hist[j];
  }

  lemma OutsideKeepsInv(s: State, e: Event)
    requires Inv(s)
    ensures Inv(OutsideStep(s, e))
  {
    if e.Edit? || e.RequestDeletion? {
      UserKeepsInv(s, e);
    } else {
      hide Sound, Ascertained, KeyName, AuthName, Persistent, Patched, Current;
    }
  }

  lemma BeginKeepsInv(s: State, reply: Reply)
    requires Inv(s) && s.worker.pc == Idle
    ensures Inv(Begin(s, reply))
  {
    hide Sound;
  }

  lemma ApplyKeepsInv(s: State, e: Event)
    requires Inv(s)
    ensures Inv(Apply(s, e))
  {
    hide Sound, Begin, CreateStep, EndStep, OutsideStep, Outcome;
    match e {
      case Act(reply) =>
        match s.worker.pc {
          case Idle => BeginKeepsInv(s, reply);
          case Creating(_) => CreateKeepsInv(s, reply);
          case Ending(RemoveFinalizer) => ReleaseKeepsInv(s, reply);
          case Ending(_) => EndKeepsPlaced(s, reply);
        }
      case Crash =>
      case _ => OutsideKeepsInv(s, e);
    }
  }

  lemma {:induction false} RunKeepsInv(start: State, events: seq<Event>)
    requires Start(start)
    ensures Inv(Run(start, events))
  {
    if events != [] {
      RunKeepsInv(start, Front(events));
      ApplyKeepsInv(Run(start, Front(events)), Last(events));
    }
  }

  /** Whoever removes the finalizer has done what its copy's policy asks: under Halt no matching
      claim and no persistent secret is owned by the object any more, the owner set at creation
      included; under any other policy but WipeOut the secrets are free and the claims owned; under
      WipeOut the claims are owned, and so is every secret left of those the attempt wiped out, which
      were exactly the ones meant. Crashes, partial failures, retries and changes of the policy between
      attempts make no difference. */
  lemma ReleaseOutcome(start: State, events: seq<Event>, log: seq<Note>, i: nat)
    requires Start(start) && log == Run(start, events).log && i < |log| && log[i].Released?
    ensures var n := log[i];
            n.snapshot.deleting && Outcome(n.snapshot, n.secrets, n.claims, n.handled, n.wiped)
    ensures log[i].snapshot.policy == WipeOutPolicy ==>
              && i > 0 && log[i - 1].WipedOut? && log[i - 1].snapshot == log[i].snapshot && log[i].wiped <= log[i - 1].names
              && JustThoseMeant(log[i].snapshot, log[i - 1].databases, log[i - 1].before, log[i - 1].names)
  {
    RunKeepsInv(start, events);
    assert Justified(log[..i], log[i]);
    if log[i].snapshot.policy == WipeOutPolicy {
      assert Justified(log[..i - 1], log[i - 1]);
    }
  }

  /** A wipe-out of this name that nobody undid is remembered until the release. */
  ghost predicate Remembered(log: seq<Note>, name: string) {
    forall i | 0 < i < |log| && log[i].Released? && log[i].snapshot.policy == WipeOutPolicy ::
      log[i - 1].WipedOut? && name in log[i - 1].names ==> name in log[i].wiped
  }

  ghost predicate Remembers(s: State, name: string) {
    && Remembered(s.log, name)
    && ((s.worker.pc == Ending(OwnClaims) || s.worker.pc == Ending(RemoveFinalizer)) && s.worker.obj.policy == WipeOutPolicy ==>
          s.log != [] && Last(s.log).WipedOut? && name in Last(s.log).names ==> name in s.worker.wiped)
  }

  lemma RememberedExtends(log: seq<Note>, note: Note, name: string)
    requires Remembered(log, name)
    requires note.Released? && note.snapshot.policy == WipeOutPolicy && log != [] && Last(log).WipedOut? && name in Last(log).names ==>
               name in note.wiped
    ensures Remembered(log + [note], name)
  {
    var all := log + [note];
    forall i | 0 < i < |all| && all[i].Released? && all[i].snapshot.policy == WipeOutPolicy
      ensures all[i - 1].WipedOut? && name in all[i - 1].names ==> name in all[i].wiped
    {
      assert i < |log| ==> log[i] == all[i] && log[i - 1] == all[i - 1];
    }
  }

  lemma EndRemembers(s: State, reply: Reply, name: string)
    requires s.hist != [] && Remembers(s, name) && s.worker.pc.Ending?
    requires s.worker.pc == Ending(FreeSecrets) ==> s.worker.obj.policy != WipeOutPolicy
    ensures Remembers(EndStep(s, reply), name)
  {
    hide WithClaims, WithSecrets, Matching, Persistent, Wiped, Remembered, Patched;
    var w := s.worker;
    if w.pc == Ending(WipeSecrets) && reply.Peers? {
      RememberedExtends(s.log, WipedOut(w.obj, reply.databases, s.secrets, Wiped(s, reply.databases)), name);
    }
    if w.pc == Ending(RemoveFinalizer) {
      RememberedExtends(s.log, Released(w.base, w.obj, s.secrets, s.claims, w.handled, w.wiped), name);
    }
    PatchedKeepsLog(s);
  }

  lemma PatchedKeepsLog(s: State)
    requires s.hist != []
    ensures forall v :: Patched(s, v) == s.(hist := Patched(s, v).hist)
  {
  }

  lemma CreateRemembers(s: State, reply: Reply, name: string)
    requires s.hist != [] && Remembers(s, name) && s.worker.pc.Creating?
    ensures Remembers(CreateStep(s, reply), name)
  {
    var t := CreateStep(s, reply);
    hide Remembered, CreateStep, LogsTruly;
    CreateNotes(s, reply);
    if t.log != s.log {
      RememberedExtends(s.log, Last(t.log), name);
      assert t.log == s.log + [Last(t.log)];
    }
  }

  lemma CheckNotes(s: State, name: string, content: nat, p: Pc, q: Pc)
    requires !p.Ending? && !q.Ending?
    ensures QuietlyNoted(s, CheckStep(s, name, p, q)) && QuietlyNoted(s, MakeStep(s, name, content, p))
  {
    hide Look;
  }

  lemma PatchNotes(s: State, reply: Reply)
    requires s.hist != [] && !s.worker.pc.Ending?
    ensures QuietlyNoted(s, AuthStep(s)) && QuietlyNoted(s, KeyStep(s)) && QuietlyNoted(s, FinalizerStep(s, reply))
    ensures QuietlyNoted(s, At(s, Idle)) && QuietlyNoted(s, At(s, Creating(CheckKey)))
  {
    hide KeyName, AuthName;
  }

  /** At most one note, not of a release, and no termination begun. */
  ghost predicate QuietlyNoted(s: State, t: State) {
    && !t.worker.pc.Ending?
    && (t.log == s.log || (t.log != [] && t.log == s.log + [Last(t.log)] && !Last(t.log).Released?))
  }

  lemma CreateNotes(s: State, reply: Reply)
    requires s.hist != [] && s.worker.pc.Creating?
    ensures QuietlyNoted(s, CreateStep(s, reply))
  {
    hide KeyName, AuthName, CheckStep, MakeStep, AuthStep, KeyStep, FinalizerStep, QuietlyNoted;
    PatchNotes(s, reply);
    var content := if reply.Made? then reply.content else 0;
    CheckNotes(s, AuthName(), content, Creating(CreateAuth), Creating(PatchAuth));
    CheckNotes(s, AuthName(), content, Creating(PatchAuth), Idle);
    CheckNotes(s, KeyName(s.worker.obj), content, Creating(CreateKey), Creating(PatchKey));
    CheckNotes(s, KeyName(s.worker.obj), content, Creating(PatchKey), Idle);
  }

  lemma ApplyRemembers(s: State, e: Event, name: string)
    requires Inv(s) && Remembers(s, name) && e != SecretDeleted(name) && e != Collect
    ensures Remembers(Apply(s, e), name)
  {
    hide Remembered, CreateStep, EndStep, Sound, Outcome, HasWiped;
    if e.Act? {
      match s.worker.pc {
        case Idle =>
        case Creating(_) => CreateRemembers(s, e.reply, name);
        case Ending(_) => EndRemembers(s, e.reply, name);
      }
    }
  }

  lemma {:induction false} RunRemembers(start: State, events: seq<Event>, name: string)
    requires Start(start) && forall e <- events :: e != SecretDeleted(name) && e != Collect
    ensures Remembers(Run(start, events), name)
  {
    if events != [] {
      hide Apply, Remembers, Inv;
      assert forall e :: e in Front(events) ==> e in events;
      assert Last(events) in events;
      RunRemembers(start, Front(events), name);
      RunKeepsInv(start, Front(events));
      ApplyRemembers(Run(start, Front(events)), Last(events), name);
    }
  }

  /** So a wipe-out is complete: as long as nobody deletes a secret, by hand or by collecting, every
      secret meant is owned by the object when the finalizer goes. */
  lemma WipeOutIsComplete(start: State, events: seq<Event>, log: seq<Note>, i: nat, name: string)
    requires Start(start) && log == Run(start, events).log
    requires forall e <- events :: e != SecretDeleted(name) && e != Collect
    requires i < |log| && log[i].Released? && log[i].snapshot.policy == WipeOutPolicy
    ensures i > 0 && log[i - 1].WipedOut?
    ensures Meant(log[i].snapshot, log[i - 1].databases, log[i - 1].before, name) && name in log[i].secrets ==>
              ME in log[i].secrets[name].owners
  {
    ReleaseOutcome(start, events, log, i);
    RunRemembers(start, events, name);
  }

  /* ---------- what outlives the object ---------- */

  /** From a version on, nobody asks for a WipeOut, or for anything but Halt. */
  ghost predicate NoWipeOut(s: State, from: nat) {
    forall j | from <= j < |s.hist| :: s.hist[j].policy != WipeOutPolicy
  }

  ghost predicate OnlyHalt(s: State, from: nat) {
    forall j | from <= j < |s.hist| :: s.hist[j].policy == HaltPolicy
  }

  ghost predicate Grows(s: State, s': State) {
    |s.hist| <= |s'.hist| && (forall j | 0 <= j < |s.hist| :: s'.hist[j] == s.hist[j]) && s.seen <= s'.seen
  }

  lemma CreateGrows(s: State, reply: Reply)
    requires s.hist != []
    ensures Grows(s, CreateStep(s, reply))
  {
    hide Look, KeyName, AuthName;
  }

  lemma EndGrows(s: State, reply: Reply)
    requires s.hist != []
    ensures Grows(s, EndStep(s, reply))
  {
    hide WithClaims, WithSecrets, Matching, Persistent, Wiped;
  }

  lemma HistoryGrows(s: State, e: Event)
    requires s.hist != []
    ensures Grows(s, Apply(s, e))
  {
    hide CreateStep, EndStep;
    if e.Act? {
      CreateGrows(s, e.reply);
      EndGrows(s, e.reply);
    }
  }

  ghost predicate SecretSafe(s: State, from: nat, name: string) {
    name in s.secrets && ME !in s.secrets[name].owners && from <= s.seen
  }

  ghost predicate ClaimSafe(s: State, from: nat, name: string) {
    name in s.claims && s.claims[name].matches && ME !in s.claims[name].owners && from <= s.seen
  }

  lemma CreateKeepsSafe(s: State, reply: Reply, from: nat, name: string)
    requires s.hist != []
    ensures SecretSafe(s, from, name) ==> SecretSafe(CreateStep(s, reply), from, name)
    ensures ClaimSafe(s, from, name) ==> ClaimSafe(CreateStep(s, reply), from, name)
  {
    hide Look, KeyName, AuthName, Current, Patched, FinalizerStep, AuthStep, KeyStep;
    PatchesKeepAll(s, reply);
  }

  lemma PatchesKeepAll(s: State, reply: Reply)
    requires s.hist != []
    ensures var t := FinalizerStep(s, reply); t.secrets == s.secrets && t.claims == s.claims && t.seen == s.seen
    ensures var t := AuthStep(s); t.secrets == s.secrets && t.claims == s.claims && t.seen == s.seen
    ensures var t := KeyStep(s); t.secrets == s.secrets && t.claims == s.claims && t.seen == s.seen
  {
    hide KeyName, AuthName;
  }

  lemma EndKeepsSecretSafe(s: State, reply: Reply, from: nat, name: string)
    requires s.hist != [] && SecretSafe(s, from, name) && s.worker.pc != Ending(WipeSecrets)
    ensures SecretSafe(EndStep(s, reply), from, name)
  {
    hide WithClaims, Matching, Persistent, Current, Wiped;
  }

  lemma EndKeepsClaimSafe(s: State, reply: Reply, from: nat, name: string)
    requires s.hist != [] && ClaimSafe(s, from, name) && s.worker.pc != Ending(OwnClaims)
    ensures ClaimSafe(EndStep(s, reply), from, name)
  {
    hide WithSecrets, Persistent, Current, Wiped;
  }

  lemma StepKeepsSecretSafe(s: State, reply: Reply, from: nat, name: string)
    requires Inv(s) && SecretSafe(s, from, name) && NoWipeOut(s, from)
    ensures SecretSafe(Step(s, reply), from, name)
  {
    hide CreateStep, EndStep, Outcome, Sound;
    assert s.worker.pc != Ending(WipeSecrets);
    CreateKeepsSafe(s, reply, from, name);
    if s.worker.pc.Ending? {
      EndKeepsSecretSafe(s, reply, from, name);
    }
  }

  lemma StepKeepsClaimSafe(s: State, reply: Reply, from: nat, name: string)
    requires Inv(s) && ClaimSafe(s, from, name) && OnlyHalt(s, from)
    ensures ClaimSafe(Step(s, reply), from, name)
  {
    hide CreateStep, EndStep, Outcome, Sound;
    assert s.worker.pc != Ending(OwnClaims);
    CreateKeepsSafe(s, reply, from, name);
    if s.worker.pc.Ending? {
      EndKeepsClaimSafe(s, reply, from, name);
    }
  }

  lemma ApplyKeepsSecretSafe(s: State, e: Event, from: nat, name: string)
    requires Inv(s) && SecretSafe(s, from, name) && NoWipeOut(s, from) && e != SecretDeleted(name)
    ensures SecretSafe(Apply(s, e), from, name)
  {
    hide Inv, Step;
    if e.Act? {
      StepKeepsSecretSafe(s, e.reply, from, name);
    }
  }

  lemma ApplyKeepsClaimSafe(s: State, e: Event, from: nat, name: string)
    requires Inv(s) && ClaimSafe(s, from, name) && OnlyHalt(s, from) && e != ClaimDeleted(name)
    ensures ClaimSafe(Apply(s, e), from, name)
  {
    hide Inv, Step;
    if e.Act? {
      StepKeepsClaimSafe(s, e.reply, from, name);
    }
  }

  lemma {:induction false} SecretSurvives(s: State, events: seq<Event>, from: nat, name: string)
    requires Inv(s) && SecretSafe(s, from, name)
    requires NoWipeOut(Run(s, events), from) && SecretDeleted(name) !in events
    ensures Inv(Run(s, events)) && SecretSafe(Run(s, events), from, name)
    decreases |events|
  {
    if events != [] {
      var before := Run(s, Front(events));
      RunKeepsInvFrom(s, Front(events));
      HistoryGrows(before, Last(events));
      assert NoWipeOut(before, from);
      SecretSurvives(s, Front(events), from, name);
      ApplyKeepsInv(before, Last(events));
      ApplyKeepsSecretSafe(before, Last(events), from, name);
    }
  }

  lemma {:induction false} RunKeepsInvFrom(s: State, events: seq<Event>)
    requires Inv(s)
    ensures Inv(Run(s, events))
  {
    if events != [] {
      RunKeepsInvFrom(s, Front(events));
      ApplyKeepsInv(Run(s, Front(events)), Last(events));
    }
  }

  lemma {:induction false} ClaimSurvives(s: State, events: seq<Event>, from: nat, name: string)
    requires Inv(s) && ClaimSafe(s, from, name)
    requires OnlyHalt(Run(s, events), from) && ClaimDeleted(name) !in events
    ensures Inv(Run(s, events)) && ClaimSafe(Run(s, events), from, name)
    decreases |events|
  {
    if events != [] {
      var before := Run(s, Front(events));
      RunKeepsInvFrom(s, Front(events));
      HistoryGrows(before, Last(events));
      assert OnlyHalt(before, from);
      ClaimSurvives(s, Front(events), from, name);
      ApplyKeepsInv(before, Last(events));
      ApplyKeepsClaimSafe(before, Last(events), from, name);
    }
  }

  /** The finalizer is about to go, and its removal goes through. */
  ghost predicate Releasing(s: State) {
    s.hist != [] && s.alive && s.worker.pc == Ending(RemoveFinalizer)
  }

  lemma ReleaseMakesSafe(s: State, name: string)
    requires Inv(s) && Releasing(s)
    ensures var t := Apply(s, Act(Ok)); Inv(t) && !t.alive
    ensures s.worker.obj.policy != WipeOutPolicy && name in Persistent(s.worker.obj) && name in s.secrets ==>
              SecretSafe(Apply(s, Act(Ok)), s.worker.base, name)
    ensures s.worker.obj.policy == HaltPolicy && name in s.claims && s.claims[name].matches ==>
              ClaimSafe(Apply(s, Act(Ok)), s.worker.base, name)
  {
    ApplyKeepsInv(s, Act(Ok));
    hide Sound, Persistent;
  }

  /** Secrets outlive the object: released under Halt or any policy but WipeOut, and no WipeOut asked
      for from the version on that run began at, a persistent secret is still there after anything
      that follows, the garbage collector included, unless somebody deletes it. */
  lemma PersistentSecretsSurvive(start: State, events: seq<Event>, more: seq<Event>, name: string)
    requires Start(start) && Releasing(Run(start, events))
    requires var s := Run(start, events);
             s.worker.obj.policy != WipeOutPolicy && name in Persistent(s.worker.obj) && name in s.secrets
    requires NoWipeOut(Run(Apply(Run(start, events), Act(Ok)), more), Run(start, events).worker.base)
    requires SecretDeleted(name) !in more
    ensures name in Run(Apply(Run(start, events), Act(Ok)), more).secrets
  {
    var s := Run(start, events);
    RunKeepsInv(start, events);
    ReleaseMakesSafe(s, name);
    SecretSurvives(Apply(s, Act(Ok)), more, s.worker.base, name);
  }

  /** Under Halt the claims outlive it as well. */
  lemma ClaimsSurviveHalt(start: State, events: seq<Event>, more: seq<Event>, name: string)
    requires Start(start) && Releasing(Run(start, events))
    requires var s := Run(start, events);
             s.worker.obj.policy == HaltPolicy && name in s.claims && s.claims[name].matches
    requires OnlyHalt(Run(Apply(Run(start, events), Act(Ok)), more), Run(start, events).worker.base)
    requires ClaimDeleted(name) !in more
    ensures name in Run(Apply(Run(start, events), Act(Ok)), more).claims
  {
    var s := Run(start, events);
    RunKeepsInv(start, events);
    ReleaseMakesSafe(s, name);
    ClaimSurvives(Apply(s, Act(Ok)), more, s.worker.base, name);
  }

  /** From a version on, nobody asks for Halt. */
  ghost predicate NoHalt(s: State, from: nat) {
    forall j | from <= j < |s.hist| :: s.hist[j].policy != HaltPolicy
  }

  /** The object is gone, and this claim has these owners, the object among them; or it had only the
      object, and the collector has been. */
  ghost predicate Held(s: State, from: nat, name: string, owners: set<Owner>) {
    && from <= s.seen && !s.alive && ME in owners
    && if name in s.claims then s.claims[name].owners == owners else owners == {ME}
  }

  lemma CreateKeepsHeld(s: State, reply: Reply, from: nat, name: string, owners: set<Owner>)
    requires s.hist != [] && Held(s, from, name, owners)
    ensures Held(CreateStep(s, reply), from, name, owners)
  {
    hide Look, KeyName, AuthName, Current, Patched;
  }

  lemma EndKeepsHeld(s: State, reply: Reply, from: nat, name: string, owners: set<Owner>)
    requires s.hist != [] && Held(s, from, name, owners) && s.worker.pc != Ending(FreeClaims)
    ensures Held(EndStep(s, reply), from, name, owners)
  {
    hide WithSecrets, Persistent, Current, Wiped;
    assert owners + {ME} == owners;
  }

  lemma ApplyKeepsHeld(s: State, e: Event, from: nat, name: string, owners: set<Owner>)
    requires Inv(s) && Held(s, from, name, owners) && NoHalt(s, from)
    requires e != ClaimDeleted(name) && !(e.ClaimAppears? && e.name == name)
    ensures Held(Apply(s, e), from, name, owners)
  {
    hide CreateStep, EndStep, Outcome, Sound;
    assert s.worker.pc != Ending(FreeClaims);
    if e.Act? {
      CreateKeepsHeld(s, e.reply, from, name, owners);
      EndKeepsHeld(s, e.reply, from, name, owners);
    }
  }

  /** Nobody deletes a claim of that name or makes another one. */
  ghost predicate ClaimLeftAlone(events: seq<Event>, name: string) {
    forall e <- events :: e != ClaimDeleted(name) && !(e.ClaimAppears? && e.name == name)
  }

  lemma {:induction false} RunKeepsHeld(s: State, events: seq<Event>, from: nat, name: string, owners: set<Owner>)
    requires Inv(s) && Held(s, from, name, owners)
    requires NoHalt(Run(s, events), from) && ClaimLeftAlone(events, name)
    ensures Held(Run(s, events), from, name, owners)
  {
    if events != [] {
      hide Inv, Held, Apply;
      var before := Run(s, Front(events));
      RunKeepsInvFrom(s, Front(events));
      InvHasHistory(before);
      HistoryGrows(before, Last(events));
      assert NoHalt(before, from);
      RunKeepsHeld(s, Front(events), from, name, owners);
      ApplyKeepsHeld(before, Last(events), from, name, owners);
    }
  }

  lemma ReleaseHolds(s: State, name: string)
    requires Inv(s) && Releasing(s) && s.worker.obj.policy != HaltPolicy
    requires name in s.worker.handled && name in s.claims && s.claims[name].matches
    ensures Held(Apply(s, Act(Ok)), s.worker.base, name, s.claims[name].owners)
  {
    hide Sound, Persistent;
  }

  /** Released without Halt, and no Halt asked for from the version on that run began at: whatever
      follows, the collector leaves a claim the run gave an owner exactly if somebody else owned it
      too. */
  lemma CollectorTakesClaims(start: State, events: seq<Event>, s: State, more: seq<Event>, t: State, name: string)
    requires Start(start) && s == Run(start, events) && Releasing(s)
    requires s.worker.obj.policy != HaltPolicy && name in s.worker.handled && name in s.claims && s.claims[name].matches
    requires t == Run(Apply(s, Act(Ok)), more) && NoHalt(t, s.worker.base) && ClaimLeftAlone(more, name)
    ensures name in Apply(t, Collect).claims <==> s.claims[name].owners != {ME}
  {
    RunKeepsInv(start, events);
    ReleaseHolds(s, name);
    ApplyKeepsInv(s, Act(Ok));
    RunKeepsHeld(Apply(s, Act(Ok)), more, s.worker.base, name, s.claims[name].owners);
    RunKeepsInvFrom(Apply(s, Act(Ok)), more);
    CollectorLooks(t, s.worker.base, name, s.claims[name].owners);
  }

  lemma CollectorLooks(t: State, from: nat, name: string, owners: set<Owner>)
    requires t.hist != [] && Held(t, from, name, owners)
    ensures name in Apply(t, Collect).claims <==> owners != {ME}
  {
  }

  /* ---------- other owners ---------- */

  /** Nobody else's ownership changes, nor any claim the selector does not match. */
  ghost predicate OthersKept(s: State, t: State, n: string) {
    && (n in s.secrets && n in t.secrets ==> t.secrets[n].owners - {ME} == s.secrets[n].owners - {ME})
    && (n in s.claims && n in t.claims ==>
          && t.claims[n].owners - {ME} == s.claims[n].owners - {ME} && t.claims[n].matches == s.claims[n].matches
          && (!s.claims[n].matches ==> t.claims[n] == s.claims[n]))
  }

  lemma CreateKeepsOthers(s: State, reply: Reply, n: string)
    requires s.hist != []
    ensures OthersKept(s, CreateStep(s, reply), n)
  {
    hide Look, KeyName, AuthName, Current;
  }

  lemma EndKeepsOthers(s: State, reply: Reply, n: string)
    requires s.hist != []
    ensures OthersKept(s, EndStep(s, reply), n)
  {
    hide Persistent, Wiped, Matching, Current;
  }

  /** Whatever happens, what stays keeps its other owners, and an unmatched claim stays as it is. */
  lemma OthersKeepTheirs(s: State, e: Event, n: string)
    requires s.hist != []
    ensures OthersKept(s, Apply(s, e), n)
  {
    hide CreateStep, EndStep;
    if e.Act? {
      CreateKeepsOthers(s, e.reply, n);
      EndKeepsOthers(s, e.reply, n);
    }
  }

  /* ---------- peers ---------- */

  /** What has to hold for an existing secret to be given this object as an owner. */
  ghost predicate MayAdopt(s: State, reply: Reply, name: string) {
    && s.worker.pc == Ending(WipeSecrets) && s.worker.obj.deleting && s.worker.obj.policy == WipeOutPolicy
    && (reply.Peers? || reply.PeersPartly?)
    && name in PersistentList(s.worker.obj) && name in s.secrets && s.secrets[name].managedBy == Some(WipeOut.KUBEDB)
    && !WipeOut.UsedByPeer(NAME, reply.databases, name)
  }

  lemma CreateAdoptsNothing(s: State, reply: Reply, name: string)
    requires s.hist != [] && name in s.secrets
    ensures name in CreateStep(s, reply).secrets && CreateStep(s, reply).secrets[name] == s.secrets[name]
  {
    hide Look, KeyName, AuthName, Current;
  }

  lemma EndAdopts(s: State, reply: Reply, name: string)
    requires Inv(s) && s.worker.pc.Ending? && name in s.secrets && ME !in s.secrets[name].owners
    ensures var t := EndStep(s, reply);
            name in t.secrets && (ME in t.secrets[name].owners ==> MayAdopt(s, reply, name))
  {
    hide WithClaims, Matching, Current, Outcome, Sound, PersistentList, Persistent;
  }

  /** In every run, a step of the worker gives the object to an existing secret as an owner only in a
      wipe-out, only if the secret is one of its own that KubeDB manages, and never if another
      database in the listing that step read uses it. */
  lemma PeersAreSpared(start: State, events: seq<Event>, reply: Reply, name: string)
    requires Start(start)
    requires var s := Run(start, events); name in s.secrets && ME !in s.secrets[name].owners
    ensures var s, t := Run(start, events), Apply(Run(start, events), Act(reply));
            name in t.secrets && (ME in t.secrets[name].owners ==> MayAdopt(s, reply, name))
  {
    RunKeepsInv(start, events);
    var s := Run(start, events);
    InvHasHistory(s);
    hide Inv, CreateStep, EndStep, MayAdopt, Run;
    CreateAdoptsNothing(s, reply, name);
    if s.worker.pc.Ending? {
      EndAdopts(s, reply, name);
    }
  }

  /* ---------- secrets are made once ---------- */

  ghost predicate Unaltered(s: State, t: State, name: string) {
    name in s.secrets && name in t.secrets ==>
      && t.secrets[name].content == s.secrets[name].content
      && t.secrets[name].ours == s.secrets[name].ours
      && t.secrets[name].managedBy == s.secrets[name].managedBy
  }

  lemma CreateAlters(s: State, reply: Reply, name: string)
    requires s.hist != []
    ensures Unaltered(s, CreateStep(s, reply), name)
  {
    hide Look, KeyName, AuthName, Current;
  }

  lemma EndAlters(s: State, reply: Reply, name: string)
    requires s.hist != []
    ensures Unaltered(s, EndStep(s, reply), name)
  {
    hide Persistent, Wiped, Matching, WithClaims, Current;
  }

  /** Whatever happens to a secret that stays, its content and labels are what they were. */
  lemma ContentNeverRewritten(s: State, e: Event, name: string)
    requires s.hist != [] && name in s.secrets && name in Apply(s, e).secrets
    ensures var before, after := s.secrets[name], Apply(s, e).secrets[name];
            after.content == before.content && after.ours == before.ours && after.managedBy == before.managedBy
  {
    hide CreateStep, EndStep;
    if e.Act? {
      CreateAlters(s, e.reply, name);
      EndAlters(s, e.reply, name);
    }
  }

  /** Every secret made is still there, as it was made, and was made once. */
  ghost predicate MadeOnce(s: State) {
    && (forall i | 0 <= i < |s.log| && s.log[i].Created? ::
          s.log[i].secret in s.secrets && s.secrets[s.log[i].secret].content == s.log[i].content)
    && (forall i, j | 0 <= i < j < |s.log| && s.log[i].Created? && s.log[j].Created? :: s.log[i].secret != s.log[j].secret)
  }

  lemma AliveBefore(s: State, e: Event)
    requires s.hist != [] && Apply(s, e).alive
    ensures s.alive
  {
    hide Persistent, Wiped, Matching, WithClaims, WithSecrets, Look, KeyName, AuthName;
  }

  lemma CreateKeepsSecrets(s: State, reply: Reply)
    requires s.hist != []
    ensures s.secrets.Keys <= CreateStep(s, reply).secrets.Keys
  {
    hide Look, KeyName, AuthName, Current;
  }

  lemma EndKeepsSecrets(s: State, reply: Reply)
    requires s.hist != []
    ensures s.secrets.Keys <= EndStep(s, reply).secrets.Keys
  {
    hide Persistent, Wiped, Matching, WithClaims, Current, WithSecrets;
    forall names, yes
      ensures WithSecrets(s.secrets, names, yes).Keys == s.secrets.Keys
    {
      OwnersKeepSecrets(s.secrets, names, yes);
    }
  }

  lemma OwnersKeepSecrets(secrets: map<string, Secret>, names: set<string>, yes: bool)
    ensures WithSecrets(secrets, names, yes).Keys == secrets.Keys
  {
  }

  lemma SecretsStay(s: State, e: Event, name: string)
    requires s.hist != [] && s.alive && !e.SecretDeleted? && name in s.secrets
    ensures name in Apply(s, e).secrets
  {
    hide CreateStep, EndStep, Current;
    if e.Act? {
      CreateKeepsSecrets(s, e.reply);
      EndKeepsSecrets(s, e.reply);
      assert name in s.secrets.Keys;
    }
  }

  /** At most one note, and if it says that a secret was made, it was not there before. */
  ghost predicate LogsTruly(s: State, t: State) {
    t.log == s.log ||
    (exists n :: t.log == s.log + [n] &&
       (n.Created? ==> n.secret !in s.secrets && n.secret in t.secrets && t.secrets[n.secret].content == n.content))
  }

  lemma CheckLogs(s: State, name: string, content: nat, p: Pc, q: Pc)
    ensures LogsTruly(s, CheckStep(s, name, p, q)) && LogsTruly(s, MakeStep(s, name, content, p))
  {
    hide Look;
    assert CheckStep(s, name, p, q).log == s.log + [Checked(name, Look(s, name))];
    assert MakeStep(s, name, content, p).log == s.log || MakeStep(s, name, content, p).log == s.log + [Created(name, content)];
  }

  lemma PatchLogs(s: State)
    requires s.hist != []
    ensures LogsTruly(s, AuthStep(s)) && LogsTruly(s, KeyStep(s))
  {
    hide KeyName, AuthName;
    assert AuthStep(s).log == s.log + [Referenced(AuthName())];
    assert KeyStep(s).log == s.log + [Referenced(KeyName(s.worker.obj))];
  }

  lemma QuietLogs(s: State, reply: Reply)
    requires s.hist != []
    ensures LogsTruly(s, FinalizerStep(s, reply)) && LogsTruly(s, At(s, Idle)) && LogsTruly(s, At(s, Creating(CheckKey)))
  {
  }

  lemma CreateLogs(s: State, reply: Reply)
    requires s.hist != []
    ensures LogsTruly(s, CreateStep(s, reply))
  {
    hide KeyName, AuthName, CheckStep, MakeStep, AuthStep, KeyStep, FinalizerStep, LogsTruly;
    QuietLogs(s, reply);
    var content := if reply.Made? then reply.content else 0;
    CheckLogs(s, AuthName(), content, Creating(CreateAuth), Creating(PatchAuth));
    CheckLogs(s, AuthName(), content, Creating(PatchAuth), Idle);
    CheckLogs(s, KeyName(s.worker.obj), content, Creating(CreateKey), Creating(PatchKey));
    CheckLogs(s, KeyName(s.worker.obj), content, Creating(PatchKey), Idle);
    PatchLogs(s);
  }

  lemma EndLogs(s: State, reply: Reply)
    requires s.hist != []
    ensures LogsTruly(s, EndStep(s, reply))
  {
    hide Persistent, Wiped, Matching, WithClaims, WithSecrets;
    var t := EndStep(s, reply);
    if s.worker.pc == Ending(WipeSecrets) && reply.Peers? {
      assert t.log == s.log + [WipedOut(s.worker.obj, reply.databases, s.secrets, Wiped(s, reply.databases))];
    } else {
      assert t.log == s.log
          || t.log == s.log + [Released(s.worker.base, s.worker.obj, s.secrets, s.claims, s.worker.handled, s.worker.wiped)];
    }
  }

  lemma CreatedIsNew(s: State, e: Event)
    requires s.hist != []
    ensures LogsTruly(s, Apply(s, e))
  {
    hide CreateStep, EndStep;
    if e.Act? {
      CreateLogs(s, e.reply);
      EndLogs(s, e.reply);
    }
  }

  lemma ApplyKeepsMadeOnce(s: State, e: Event)
    requires s.hist != [] && s.alive && !e.SecretDeleted? && MadeOnce(s)
    ensures MadeOnce(Apply(s, e))
  {
    hide Apply;
    var t := Apply(s, e);
    CreatedIsNew(s, e);
    assert forall i | 0 <= i < |s.log| :: t.log[i] == s.log[i];
    forall i | 0 <= i < |s.log| && s.log[i].Created?
      ensures s.log[i].secret in t.secrets && t.secrets[s.log[i].secret].content == s.log[i].content
    {
      SecretsStay(s, e, s.log[i].secret);
      ContentNeverRewritten(s, e, s.log[i].secret);
    }
  }

  /** Over any number of attempts with crashes between creation and patch: as long as the object
      lives and nobody deletes secrets, each secret is made at most once and keeps its content. */
  lemma {:induction false} SecretsAreMadeOnce(start: State, events: seq<Event>)
    requires Start(start) && Run(start, events).alive
    requires forall e <- events :: !e.SecretDeleted?
    ensures MadeOnce(Run(start, events))
  {
    if events != [] {
      hide Start, MadeOnce, Apply;
      var before := Run(start, Front(events));
      RunKeepsInv(start, Front(events));
      assert before.hist != [] by { InvHasHistory(before); }
      AliveBefore(before, Last(events));
      SecretsAreMadeOnce(start, Front(events));
      ApplyKeepsMadeOnce(before, Last(events));
    }
  }

  lemma InvHasHistory(s: State)
    requires Inv(s)
    ensures s.hist != []
  {
  }

  lemma RunIsSound(start: State, events: seq<Event>)
    requires Start(start)
    ensures Sound(Run(start, events).log)
  {
    RunKeepsInv(start, events);
  }

  lemma ReferencesAreAscertained(log: seq<Note>, i: nat)
    requires Sound(log) && i < |log| && log[i].Referenced?
    ensures i > 0 && (log[i - 1] == Checked(log[i].secret, Ours) || (log[i - 1].Created? && log[i - 1].secret == log[i].secret))
  {
    assert Justified(log[..i], log[i]);
  }

  /** A reference is written only right after the secret was found carrying our labels, or made:
      a foreign secret of that name is never taken over. */
  lemma ForeignIsNeverAdopted(start: State, events: seq<Event>, i: nat)
    requires Start(start)
    requires var log := Run(start, events).log; i < |log| && log[i].Referenced?
    ensures var log := Run(start, events).log;
            i > 0 && (log[i - 1] == Checked(log[i].secret, Ours) || (log[i - 1].Created? && log[i - 1].secret == log[i].secret))
  {
    hide Start, Sound, Apply;
    RunIsSound(start, events);
    ReferencesAreAscertained(Run(start, events).log, i);
  }

  lemma MakingIsAscertained(log: seq<Note>, i: nat)
    requires Sound(log) && i < |log| && log[i].Created?
    ensures i > 0 && log[i - 1] == Checked(log[i].secret, Absent)
  {
    assert Justified(log[..i], log[i]);
  }

  /** Finding a foreign secret under the auth or the key file name ends the attempt: in no run is
      anything made or referenced right after it: the next thing is another check, or a termination. */
  lemma ForeignEndsTheRun(start: State, events: seq<Event>, i: nat)
    requires Start(start)
    requires var log := Run(start, events).log; i + 1 < |log| && log[i].Checked? && log[i].found == Foreign
    ensures var log := Run(start, events).log; !log[i + 1].Created? && !log[i + 1].Referenced?
  {
    hide Start, Sound, Apply;
    RunIsSound(start, events);
    var log := Run(start, events).log;
    if log[i + 1].Created? {
      MakingIsAscertained(log, i + 1);
    }
    if log[i + 1].Referenced? {
      ReferencesAreAscertained(log, i + 1);
    }
  }

  /** Both checks notice it, and leave everything stored as it is. */
  lemma ForeignIsNoticed(s: State, name: string)
    requires s.hist != [] && name in s.secrets && !s.secrets[name].ours
    requires (s.worker.pc == Creating(CheckAuth) && s.worker.obj.authSecret.None? && name == AuthName())
          || (s.worker.pc == Creating(CheckKey) && s.worker.obj.keyFileRequired && name == KeyName(s.worker.obj))
    ensures Apply(s, Act(Ok)) == At(Noted(s, Checked(name, Foreign)), Idle)
  {
    hide KeyName, AuthName;
  }
}
