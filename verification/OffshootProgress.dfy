/** What the secrets worker gets done: left to finish, it creates and references the secrets of a
    live object, and lets a deleted one go, whatever others do to secrets and claims meanwhile. */
module OffshootProgress {
  import opened Common
  import opened Offshoots
  import opened OffshootSafety
  import WipeOut

  /** Reads see the current version, peers can be listed, new secrets can be made, every other call
      goes through. */
  predicate Obliging(s: State, reply: Reply) {
    match s.worker.pc
    case Idle => reply.Read? && reply.version + 1 == |s.hist|
    case Creating(CreateAuth) => reply.Made?
    case Creating(CreateKey) => reply.Made?
    case Ending(WipeSecrets) => reply.Peers?
    case _ => reply == Ok
  }

  predicate IsAct(e: Event) {
    e.Act?
  }

  function Acts(events: seq<Event>): nat {
    if events == [] then 0 else Acts(Front(events)) + (if IsAct(Last(events)) then 1 else 0)
  }

  /* ---------- termination ---------- */

  /** Anything at all may happen between the worker's steps, but it is not killed. */
  ghost predicate Obliged(s: State, events: seq<Event>) {
    events == [] ||
    (&& Obliged(s, Front(events)) && !Last(events).Crash?
     && (Last(events).Act? ==> Obliging(Run(s, Front(events)), Last(events).reply)))
  }

  function StepsToRelease(pc: Pc): nat {
    match pc
    case Ending(FreeClaims) => 4
    case Ending(FreeSecrets) => 3
    case Ending(WipeSecrets) => 3
    case Ending(OwnClaims) => 2
    case Ending(RemoveFinalizer) => 1
    case _ => 5
  }

  ghost predicate Terminating(s: State) {
    && s.hist != [] && s.seen < |s.hist| && s.alive && Current(s).deleting && Current(s).finalizer
    && (s.worker.pc == Idle || s.worker.pc.Ending?)
  }

  ghost predicate Gone(s: State) {
    s.hist != [] && s.seen < |s.hist| && !s.alive && !Current(s).finalizer
  }

  ghost predicate Ends(s: State, n: int) {
    Gone(s) || (Terminating(s) && StepsToRelease(s.worker.pc) <= n)
  }

  lemma EndEnds(s: State, reply: Reply, n: int)
    requires Terminating(s) && s.worker.pc.Ending? && StepsToRelease(s.worker.pc) <= n && Obliging(s, reply)
    ensures Ends(EndStep(s, reply), n - 1)
  {
    hide WithClaims, WithSecrets, Matching, Persistent, Wiped;
  }

  lemma GoneStaysGone(s: State, e: Event)
    requires Gone(s)
    ensures Gone(Apply(s, e))
  {
    hide WithClaims, WithSecrets, Matching, Persistent, Wiped, KeyName, AuthName, Look;
  }

  lemma OthersDoNotStop(s: State, e: Event, n: int)
    requires Terminating(s) && StepsToRelease(s.worker.pc) <= n && !e.Act? && !e.Crash?
    ensures Ends(Apply(s, e), n)
  {
  }

  lemma ActEnds(s: State, reply: Reply, n: int)
    requires Terminating(s) && StepsToRelease(s.worker.pc) <= n && Obliging(s, reply)
    ensures Ends(Apply(s, Act(reply)), n - 1)
  {
    hide EndStep, CreateStep;
    if s.worker.pc.Ending? {
      EndEnds(s, reply, n);
    } else {
      assert s.hist[|s.hist| - 1] == Current(s);
    }
  }

  lemma EventEnds(s: State, e: Event, n: int)
    requires Ends(s, n) && !e.Crash? && (e.Act? ==> Obliging(s, e.reply))
    ensures Ends(Apply(s, e), n - if IsAct(e) then 1 else 0)
  {
    if Gone(s) {
      GoneStaysGone(s, e);
    } else if e.Act? {
      ActEnds(s, e.reply, n);
    } else {
      OthersDoNotStop(s, e, n);
    }
  }

  lemma {:induction false} RunEnds(s: State, events: seq<Event>, n: int)
    requires Ends(s, n) && Obliged(s, events)
    ensures Ends(Run(s, events), n - Acts(events))
  {
    hide Apply, Ends, Obliging, IsAct;
    if events != [] {
      RunEnds(s, Front(events), n);
      EventEnds(Run(s, Front(events)), Last(events), n - Acts(Front(events)));
    }
  }

  /** A deleted object goes: five steps of a worker that is not killed, whose calls go through, remove
      the finalizer, under every policy and whatever others do to secrets, claims and the spec. */
  lemma TerminationCompletes(start: State, events: seq<Event>, s: State, more: seq<Event>)
    requires Start(start) && s == Run(start, events) && s.worker.pc == Idle
    requires s.hist != [] && s.alive && Current(s).deleting && Current(s).finalizer
    requires Obliged(s, more) && Acts(more) >= 5
    ensures var t := Run(s, more); !t.alive && t.hist != [] && !Current(t).finalizer
  {
    RunKeepsInv(start, events);
    TerminatingEnds(s, more, Run(s, more));
  }

  lemma TerminatingEnds(s: State, more: seq<Event>, t: State)
    requires Terminating(s) && StepsToRelease(s.worker.pc) <= 5 && Obliged(s, more) && Acts(more) >= 5 && t == Run(s, more)
    ensures !t.alive && t.hist != [] && !Current(t).finalizer
  {
    hide Run, Obliged, Obliging;
    RunEnds(s, more, 5);
  }

  /* ---------- creation ---------- */

  /** Nothing is done to the object or to the secrets it is going to refer to. */
  predicate Harmless(e: Event, key: string) {
    match e
    case Act(_) => true
    case SecretAppears(n, _) => n != AuthName() && n != key
    case SecretDeleted(n) => n != AuthName() && n != key
    case ClaimAppears(_, _) => true
    case ClaimDeleted(_) => true
    case Collect => true
    case _ => false
  }

  ghost predicate Undisturbed(s: State, events: seq<Event>, key: string) {
    events == [] ||
    (&& Undisturbed(s, Front(events), key) && Harmless(Last(events), key)
     && (Last(events).Act? ==> Obliging(Run(s, Front(events)), Last(events).reply)))
  }

  function StepsToReference(pc: Pc): nat {
    match pc
    case Creating(AddFinalizer) => 7
    case Creating(CheckAuth) => 6
    case Creating(CreateAuth) => 5
    case Creating(PatchAuth) => 4
    case Creating(CheckKey) => 3
    case Creating(CreateKey) => 2
    case Creating(PatchKey) => 1
    case _ => 8
  }

  /** A secret of that name, if there is one, carries our labels. */
  predicate NotForeign(s: State, name: string) {
    name in s.secrets ==> s.secrets[name].ours
  }

  predicate IsOurs(s: State, name: string) {
    name in s.secrets && s.secrets[name].ours
  }

  /** The auth secret referred to is the one at first, or the one made here. */
  ghost predicate AuthStands(s: State, auth: Option<string>)
    requires s.hist != []
  {
    Current(s).authSecret == auth || (auth.None? && Current(s).authSecret == Some(AuthName()) && IsOurs(s, AuthName()))
  }

  ghost predicate Building(s: State, auth: Option<string>, key: string) {
    && s.hist != [] && s.seen < |s.hist| && s.alive && !Current(s).deleting && KeyName(Current(s)) == key
    && NotForeign(s, AuthName()) && NotForeign(s, key) && AuthStands(s, auth)
    && match s.worker.pc
       case Idle => true
       case Ending(_) => false
       case Creating(pc) =>
         && s.worker.obj == Current(s)
         && (pc != AddFinalizer ==> Current(s).finalizer)
         && (pc == CreateAuth || pc == PatchAuth ==> Current(s).authSecret.None?)
         && (pc == CreateAuth ==> AuthName() !in s.secrets)
         && (pc == PatchAuth ==> IsOurs(s, AuthName()))
         && (pc == CheckKey || pc == CreateKey || pc == PatchKey ==> Current(s).authSecret.Some?)
         && (pc == CreateKey || pc == PatchKey ==> Current(s).keyFileRequired)
         && (pc == CreateKey ==> key !in s.secrets)
         && (pc == PatchKey ==> IsOurs(s, key))
  }

  /** Both secrets are there and referred to, as far as they are wanted. */
  ghost predicate Built(s: State, key: string) {
    && s.hist != [] && Current(s).finalizer && Current(s).authSecret.Some?
    && (Current(s).keyFileRequired ==> Current(s).keyFileSecret == Some(key) && IsOurs(s, key))
  }

  ghost predicate Comes(s: State, auth: Option<string>, key: string, n: int) {
    Building(s, auth, key) && (Built(s, key) || StepsToReference(s.worker.pc) <= n)
  }

  lemma KeyNameStays(v: Version, key: string)
    requires KeyName(v) == key && key != []
    ensures KeyName(v.(keyFileSecret := Some(key))) == key
  {
  }

  lemma FinalizerComes(s: State, reply: Reply, auth: Option<string>, key: string, n: int)
    requires Comes(s, auth, key, n) && s.worker.pc == Creating(AddFinalizer) && Obliging(s, reply)
    ensures Comes(CreateStep(s, reply), auth, key, n - 1)
  {
    hide AuthName;
  }

  lemma AuthComes(s: State, reply: Reply, auth: Option<string>, key: string, n: int)
    requires Comes(s, auth, key, n) && Obliging(s, reply)
    requires s.worker.pc == Creating(CheckAuth) || s.worker.pc == Creating(CreateAuth) || s.worker.pc == Creating(PatchAuth)
    ensures Comes(CreateStep(s, reply), auth, key, n - 1)
  {
    hide AuthName;
  }

  lemma KeyComes(s: State, reply: Reply, auth: Option<string>, key: string, n: int)
    requires Comes(s, auth, key, n) && Obliging(s, reply) && key != []
    requires s.worker.pc == Creating(CheckKey) || s.worker.pc == Creating(CreateKey) || s.worker.pc == Creating(PatchKey)
    ensures Comes(CreateStep(s, reply), auth, key, n - 1)
  {
    KeyNameStays(Current(s), key);
    hide AuthName, KeyName;
  }

  lemma BeginComes(s: State, reply: Reply, auth: Option<string>, key: string, n: int)
    requires Comes(s, auth, key, n) && s.worker.pc == Idle && Obliging(s, reply)
    ensures Comes(Begin(s, reply), auth, key, n - 1)
  {
    hide AuthName, KeyName;
    assert s.hist[|s.hist| - 1] == Current(s);
  }

  lemma OthersLeaveIt(s: State, e: Event, auth: Option<string>, key: string, n: int)
    requires Comes(s, auth, key, n) && Harmless(e, key) && !e.Act?
    ensures Comes(Apply(s, e), auth, key, n)
  {
    hide AuthName, KeyName;
  }

  lemma ActComes(s: State, reply: Reply, auth: Option<string>, key: string, n: int)
    requires Comes(s, auth, key, n) && Obliging(s, reply) && key != []
    ensures Comes(Apply(s, Act(reply)), auth, key, n - 1)
  {
    assert s.hist != [];
    hide AuthName, KeyName, Comes, CreateStep, Begin, Obliging;
    if s.worker.pc == Idle {
      BeginComes(s, reply, auth, key, n);
    } else {
      CreatingPc(s, auth, key, n);
      match s.worker.pc.create {
        case AddFinalizer => FinalizerComes(s, reply, auth, key, n);
        case CheckAuth => AuthComes(s, reply, auth, key, n);
        case CreateAuth => AuthComes(s, reply, auth, key, n);
        case PatchAuth => AuthComes(s, reply, auth, key, n);
        case _ => KeyComes(s, reply, auth, key, n);
      }
    }
  }

  lemma CreatingPc(s: State, auth: Option<string>, key: string, n: int)
    requires Comes(s, auth, key, n) && s.worker.pc != Idle
    ensures s.worker.pc.Creating?
  {
    hide AuthName, KeyName, Built;
  }

  lemma EventComes(s: State, e: Event, auth: Option<string>, key: string, n: int)
    requires Comes(s, auth, key, n) && Harmless(e, key) && key != [] && (e.Act? ==> Obliging(s, e.reply))
    ensures Comes(Apply(s, e), auth, key, n - if IsAct(e) then 1 else 0)
  {
    hide Apply, Comes, Obliging, Harmless;
    if e.Act? {
      ActComes(s, e.reply, auth, key, n);
    } else {
      OthersLeaveIt(s, e, auth, key, n);
    }
  }

  lemma {:induction false} RunComes(s: State, events: seq<Event>, auth: Option<string>, key: string, n: int)
    requires Comes(s, auth, key, n) && Undisturbed(s, events, key) && key != []
    ensures Comes(Run(s, events), auth, key, n - Acts(events))
  {
    hide Apply, Comes, Obliging, Harmless, IsAct;
    if events != [] {
      RunComes(s, Front(events), auth, key, n);
      EventComes(Run(s, Front(events)), Last(events), auth, key, n - Acts(Front(events)));
    }
  }

  lemma ComesToBuilt(t: State, auth: Option<string>, key: string, n: int)
    requires Comes(t, auth, key, n) && n <= 0
    ensures t.hist != [] && Current(t).finalizer
    ensures Current(t).authSecret == if auth.Some? then auth else Some(NAME + AUTH_SUFFIX)
    ensures auth.None? ==> NAME + AUTH_SUFFIX in t.secrets && t.secrets[NAME + AUTH_SUFFIX].ours
    ensures Current(t).keyFileRequired ==> Current(t).keyFileSecret == Some(key) && key in t.secrets && t.secrets[key].ours
  {
    hide KeyName;
  }

  /** A live object gets its secrets: eight steps of a worker whose calls go through leave it with its
      finalizer, with a reference to an auth secret, its own if it had none before, and, where a key file
      is required, with a reference to that secret; the secrets made are there and carry our labels. It
      takes that no secret of these names belongs to somebody else. */
  lemma CreationCompletes(start: State, events: seq<Event>, s: State, more: seq<Event>, key: string)
    requires Start(start) && s == Run(start, events) && s.worker.pc == Idle
    requires s.hist != [] && s.alive && !Current(s).deleting
    requires var named := Current(s).keyFileSecret;
             key == if named.Some? && named.value != [] then named.value else NAME + KEY_SUFFIX
    requires forall n | n == NAME + AUTH_SUFFIX || n == key :: n in s.secrets ==> s.secrets[n].ours
    requires Undisturbed(s, more, key) && Acts(more) >= 8
    ensures var t, auth := Run(s, more), Current(s).authSecret;
            && t.hist != [] && Current(t).finalizer
            && Current(t).authSecret == (if auth.Some? then auth else Some(NAME + AUTH_SUFFIX))
            && (auth.None? ==> NAME + AUTH_SUFFIX in t.secrets && t.secrets[NAME + AUTH_SUFFIX].ours)
            && (Current(t).keyFileRequired ==> Current(t).keyFileSecret == Some(key) && key in t.secrets && t.secrets[key].ours)
  {
    RunKeepsInv(start, events);
    BuildingGetsBuilt(s, more, Current(s).authSecret, key, Run(s, more));
  }

  lemma BuildingGetsBuilt(s: State, more: seq<Event>, auth: Option<string>, key: string, t: State)
    requires Building(s, auth, key) && s.worker.pc == Idle && Undisturbed(s, more, key) && Acts(more) >= 8 && t == Run(s, more)
    ensures t.hist != [] && Current(t).finalizer
    ensures Current(t).authSecret == if auth.Some? then auth else Some(NAME + AUTH_SUFFIX)
    ensures auth.None? ==> NAME + AUTH_SUFFIX in t.secrets && t.secrets[NAME + AUTH_SUFFIX].ours
    ensures Current(t).keyFileRequired ==> Current(t).keyFileSecret == Some(key) && key in t.secrets && t.secrets[key].ours
  {
    assert key != [] by { KeyIsNamed(Current(s)); }
    hide Run, Undisturbed, Building, Built;
    RunComes(s, more, auth, key, 8);
    ComesToBuilt(t, auth, key, 8 - Acts(more));
  }

  lemma KeyIsNamed(v: Version)
    ensures KeyName(v) != []
  {
  }
}
