/** Secret creation and termination as they are written: check, create and patch the reference;
    then, on deletion, loops that patch owner references item by item and stop at the first error.
    `Attempted` is what the step system of Offshoots may come to on a script, the order of the loops
    left open; each method promises that the attempt can still end only there, and what is stored
    when it succeeds. */
module OffshootWorker {
  import opened Common
  import opened Offshoots
  import opened OffshootSafety
  import WipeOut

  /** What others do before a call, how it goes, and which items cannot be read or patched. */
  datatype Tick = Tick(before: seq<Event>, reply: Reply, unreadable: set<string>, failing: set<string>)

  predicate AllForeign(script: seq<Tick>) {
    forall t <- script :: forall e <- t.before :: !e.Act? && !e.Crash?
  }

  lemma HeadIsForeign(script: seq<Tick>)
    requires AllForeign(script) && script != []
    ensures (forall e <- script[0].before :: !e.Act? && !e.Crash?) && AllForeign(script[1..])
  {
  }

  /** Others leave alone what this process remembers, except that items may vanish; they undo no
      version, and write no note. */
  predicate Kept(s: State, t: State) {
    && t.log == s.log && t.seen == s.seen && s.hist <= t.hist
    && t.worker == s.worker.(handled := t.worker.handled, wiped := t.worker.wiped)
    && t.worker.handled <= s.worker.handled && t.worker.wiped <= s.worker.wiped
  }

  lemma ForeignStep(s: State, e: Event)
    requires s.hist != [] && !e.Act? && !e.Crash?
    ensures Kept(s, Apply(s, e))
  {
  }

  lemma {:induction false} ForeignRun(s: State, events: seq<Event>)
    requires s.hist != [] && forall e <- events :: !e.Act? && !e.Crash?
    ensures Run(s, events).hist != [] && Kept(s, Run(s, events))
  {
    hide Apply;
    if events != [] {
      ForeignRun(s, Front(events));
      ForeignStep(Run(s, Front(events)), Last(events));
    }
  }

  /* ---------- owner references, item by item ---------- */

  /** EnsureOwnerReferenceForItems and RemoveOwnerReferenceForItems on secrets: missing ones are
      passed over, the first failing patch ends the loop. */
  method PatchSecretOwners(secrets: map<string, Secret>, names: set<string>, yes: bool, failing: set<string>)
      returns (ok: bool, after: map<string, Secret>, done: set<string>)
    ensures done <= names && after == WithSecrets(secrets, done, yes)
    ensures ok ==> done == names
    ensures ok <==> names * secrets.Keys !! failing
    ensures done * secrets.Keys !! failing
  {
    var rest := names;
    after, done := secrets, {};
    while rest != {}
      invariant rest <= names && done == names - rest
      invariant after == WithSecrets(secrets, done, yes)
      invariant done * secrets.Keys !! failing
      decreases |rest|
    {
      var n :| n in rest;
      if n in secrets {
        if n in failing {
          return false, after, done;
        }
        after := after[n := OwnSecret(secrets[n], yes)];
      }
      rest, done := rest - {n}, done + {n};
    }
    ok := true;
  }

  /** The same by label selector, on claims. */
  method PatchClaimOwners(claims: map<string, Claim>, yes: bool, failing: set<string>)
      returns (ok: bool, after: map<string, Claim>, done: set<string>)
    ensures done <= Matching(claims) && after == WithClaims(claims, done, yes)
    ensures ok ==> done == Matching(claims)
    ensures (ok <==> Matching(claims) !! failing) && done !! failing
  {
    var rest := Matching(claims);
    after, done := claims, {};
    while rest != {}
      invariant rest <= Matching(claims) && done == Matching(claims) - rest
      invariant after == WithClaims(claims, done, yes)
      invariant done !! failing
      decreases |rest|
    {
      var n :| n in rest;
      if n in failing {
        return false, after, done;
      }
      after := after[n := OwnClaim(claims[n], yes)];
      rest, done := rest - {n}, done + {n};
    }
    ok := true;
  }

  /* ---------- what an attempt may come to ---------- */

  /** Whether the worker's next step calls the API at all. */
  predicate Calls(w: Worker) {
    match w.pc
    case Creating(AddFinalizer) => !w.obj.finalizer
    case Creating(CheckAuth) => w.obj.authSecret.None?
    case Creating(CheckKey) => w.obj.keyFileRequired
    case _ => true
  }

  /** A loop over items goes through, or stops at a failing one with some others done. */
  predicate LoopAnswers(items: set<string>, failing: set<string>, reply: Reply) {
    if items !! failing then reply == Ok else reply.Partly? && reply.done * items !! failing
  }

  /** A secret this wipe-out has to look at cannot be read. */
  ghost predicate LookFails(v: Version, databases: seq<WipeOut.Database>, unreadable: set<string>) {
    exists n :: WipeOut.Candidate(NAME, databases, PersistentList(v), n) && WipeOut.GetFails(unreadable, n)
  }

  /** The step system's replies that a call may amount to when it goes like this. */
  ghost predicate Answers(now: State, t: Tick, reply: Reply) {
    var w := now.worker;
    match w.pc
    case Ending(FreeClaims) => LoopAnswers(Matching(now.claims), t.failing, reply)
    case Ending(OwnClaims) => LoopAnswers(Matching(now.claims), t.failing, reply)
    case Ending(FreeSecrets) => LoopAnswers(Persistent(w.obj) * now.secrets.Keys, t.failing, reply)
    case Ending(WipeSecrets) =>
      if !t.reply.Peers? || LookFails(w.obj, t.reply.databases, t.unreadable) then reply == Fail
      else if Wiped(now, t.reply.databases) !! t.failing then reply == t.reply
      else reply.PeersPartly? && reply.databases == t.reply.databases && reply.done * Wiped(now, t.reply.databases) !! t.failing
    case _ => reply == t.reply
  }

  /** Steps without a call only go forward. */
  function Places(pc: Pc): nat {
    match pc
    case Creating(AddFinalizer) => 3
    case Creating(CheckAuth) => 2
    case Creating(CheckKey) => 1
    case _ => 0
  }

  lemma WithoutCallForward(s: State)
    requires s.hist != [] && !Calls(s.worker)
    ensures Places(Step(s, Ok).worker.pc) < Places(s.worker.pc)
  {
  }

  /** What the step system may come to on a script: where the worker makes a call the world moves
      on first and the call decides, elsewhere it just goes on, until it is idle. When the script
      is used up the process dies. In which order a loop goes over its items is open. */
  ghost function Attempted(s: State, script: seq<Tick>): iset<State>
    decreases |script|, Places(s.worker.pc), 0
  {
    if s.hist == [] then iset{s}
    else if !Calls(s.worker) then
      WithoutCallForward(s);
      Rest(Apply(s, Act(Ok)), script)
    else if script == [] then iset{Apply(s, Crash)}
    else
      var now := Run(s, script[0].before);
      iset reply: Reply, t: State | Answers(now, script[0], reply) && t in Rest(Apply(now, Act(reply)), script[1..]) :: t
  }

  /** What is left of an attempt under way. */
  ghost function Rest(s: State, script: seq<Tick>): iset<State>
    decreases |script|, Places(s.worker.pc), 1
  {
    if s.worker.pc == Idle then iset{s} else Attempted(s, script)
  }

  lemma SomeDone(done: set<string>, items: set<string>, stored: set<string>, failing: set<string>)
    requires items <= stored && done * stored !! failing
    ensures done * items !! failing
  {
  }

  lemma SecretsAreFreed(secrets: map<string, Secret>, v: Version)
    ensures SecretsFreed(WithSecrets(secrets, Persistent(v), false), v)
  {
  }

  ghost predicate SomeSecretFails(secrets: map<string, Secret>, v: Version, failing: set<string>) {
    exists n :: n in secrets && n in failing && (v.authSecret == Some(n) || v.keyFileSecret == Some(n))
  }

  ghost predicate SomeClaimFails(claims: map<string, Claim>, failing: set<string>) {
    exists n :: n in claims && n in failing && claims[n].matches
  }

  lemma SecretFails(secrets: map<string, Secret>, v: Version, failing: set<string>, done: set<string>)
    requires !(Persistent(v) * secrets.Keys !! failing)
    ensures SomeSecretFails(WithSecrets(secrets, done, false), v, failing)
  {
    var n :| n in Persistent(v) * secrets.Keys && n in failing;
    assert n in WithSecrets(secrets, done, false);
  }

  lemma ClaimFails(claims: map<string, Claim>, failing: set<string>, done: set<string>, yes: bool)
    requires !(Matching(claims) !! failing)
    ensures SomeClaimFails(WithClaims(claims, done, yes), failing)
  {
    var n :| n in Matching(claims) && n in failing;
    assert n in WithClaims(claims, done, yes) && WithClaims(claims, done, yes)[n].matches;
  }

  lemma ClaimsAreFreed(claims: map<string, Claim>)
    ensures ClaimsFreed(WithClaims(claims, Matching(claims), false))
  {
  }

  lemma ClaimsAreOwned(claims: map<string, Claim>)
    ensures ClaimsOwned(WithClaims(claims, Matching(claims), true), Matching(claims))
    ensures Matching(WithClaims(claims, Matching(claims), true)) == Matching(claims)
  {
  }

  lemma WipedAreOwned(secrets: map<string, Secret>, names: set<string>)
    ensures SecretsOwned(WithSecrets(secrets, names, true), names)
  {
  }

  class Controller {
    // stored outside this process
    var hist: seq<Version>
    var seen: nat
    var alive: bool
    var secrets: map<string, Secret>
    var claims: map<string, Claim>
    var log: seq<Note>
    var script: seq<Tick>
    // the process: its variables with the place in the code
    var w: Worker
    // how the last call went, and the run of the step system this amounts to
    ghost var tick: Tick
    ghost const origin: State
    ghost var trace: seq<Event>

    ghost function Cluster(): State
      reads this
    {
      State(hist, seen, alive, secrets, claims, w, log)
    }

    ghost predicate Valid()
      reads this
    {
      hist != [] && Cluster() == Run(origin, trace) && AllForeign(script)
    }

    /** Where an attempt begun now may end, where the one under way may end, and where it may end
        after a step on this reply. */
    ghost function Begun(): iset<State>
      reads this
    {
      Attempted(Cluster(), script)
    }

    ghost function Ahead(): iset<State>
      reads this
    {
      Rest(Cluster(), script)
    }

    ghost function Answered(reply: Reply): iset<State>
      reads this
    {
      Rest(Apply(Cluster(), Act(reply)), script)
    }

    /** One call has been made of this script, or there was none left and the process is gone. */
    ghost predicate Used(before: seq<Tick>)
      reads this
    {
      if before == [] then script == [] else script == before[1..] && tick == before[0]
    }

    /** One call has been made, and this was its reply. */
    ghost predicate Replied(before: seq<Tick>, reply: Reply)
      reads this
    {
      before != [] && before[0].reply == reply && Used(before)
    }

    /** Any step the last call allows leads on to where the attempt may end. */
    ghost predicate Called(goals: iset<State>)
      reads this
    {
      forall reply | Answers(Cluster(), tick, reply) :: Answered(reply) <= goals
    }

    /** The run so far goes on from an earlier one, and the attempt can end only where it might. */
    ghost predicate Continues(before: seq<Event>, goals: iset<State>)
      reads this
    {
      before <= trace && Ahead() <= goals
    }

    constructor (s: State, script: seq<Tick>)
      requires s.hist != [] && s.worker.pc == Idle && AllForeign(script)
      ensures Valid() && w.pc == Idle && origin == s && trace == []
    {
      hist, seen, alive, secrets, claims, log := s.hist, s.seen, s.alive, s.secrets, s.claims, s.log;
      w, tick := s.worker, Tick([], Fail, {}, {});
      this.script, origin, trace := script, s, [];
    }

    /* ---------- talking to the world ---------- */

    /** The world moves on, then the next call goes as the script says; None when the process dies. */
    method Call() returns (t: Option<Tick>)
      requires Valid() && Calls(w)
      modifies this
      ensures Valid() && old(trace) <= trace
      ensures w == old(w).(pc := if t.None? then Idle else old(w).pc, handled := w.handled, wiped := w.wiped)
      ensures Used(old(script)) && (t.None? <==> old(script) == []) && w.wiped <= old(w).wiped
      ensures log == old(log) && seen == old(seen) && old(hist) <= hist
      ensures old(w).pc != Idle ==> old(Begun()) == old(Ahead())
      ensures if t.None? then Ahead() <= old(Begun()) else Called(old(Begun())) && tick == t.value
    {
      hide Run, AllForeign, OutsideStep, Step, Calls, Answers;
      if script == [] {
        RunOne(origin, trace, Crash);
        w := w.(pc := Idle);
        trace := trace + [Crash];
        return None;
      }
      var next := script[0];
      HeadIsForeign(script);
      RunConcat(origin, trace, next.before);
      ghost var before := Cluster();
      ForeignRun(before, next.before);
      var now := Run(State(hist, seen, alive, secrets, claims, w, log), next.before);
      hist, seen, alive, secrets, claims, w, log := now.hist, now.seen, now.alive, now.secrets, now.claims, now.worker, now.log;
      script := script[1..];
      trace, tick := trace + next.before, next;
      t := Some(next);
    }

    /** A step is done: store its outcome, and note that the step system took the same one. */
    method Commit(reply: Reply, s: State)
      requires Valid() && s.hist != []
      requires Step(Cluster(), reply) == s
      modifies this
      ensures Valid() && Cluster() == s && tick == old(tick) && script == old(script)
      ensures old(trace) <= trace && Ahead() == old(Answered(reply))
    {
      hide Run, Step, AllForeign, Rest;
      RunOne(origin, trace, Act(reply));
      hist, seen, alive, secrets, claims, w, log := s.hist, s.seen, s.alive, s.secrets, s.claims, s.worker, s.log;
      trace := trace + [Act(reply)];
    }

    function Now(): State
      reads this
    {
      State(hist, seen, alive, secrets, claims, w, log)
    }

    method Stop(reply: Reply)
      requires Valid()
      requires Step(Cluster(), reply) == At(Cluster(), Idle)
      modifies this
      ensures Valid() && Cluster() == old(Cluster()).(worker := w) && w == old(w).(pc := Idle) && tick == old(tick) && script == old(script)
      ensures old(trace) <= trace && Ahead() == old(Answered(reply))
    {
      hide Run, Step, AllForeign, Answered, Ahead;
      Commit(reply, At(Now(), Idle));
    }

    /** A step that makes no call. */
    method Go(pc: Pc)
      requires Valid() && w.pc != Idle && !Calls(w)
      requires Step(Cluster(), Ok) == At(Cluster(), pc)
      modifies this
      ensures Valid() && Continues(old(trace), old(Ahead()))
      ensures Cluster() == old(Cluster()).(worker := w) && w == old(w).(pc := pc) && script == old(script)
    {
      hide Run, Step, AllForeign, Calls, Apply;
      assert Ahead() == Begun();
      assert Begun() == Answered(Ok);
      Commit(Ok, At(Now(), pc));
    }

    /** Read the object through the cache: a stored version, never an older one than before. */
    method Get() returns (found: bool)
      requires Valid() && w.pc == Idle
      modifies this
      ensures Valid() && Continues(old(trace), old(Begun()))
      ensures found ==> old(seen) <= seen == w.base < |hist| && w.obj == hist[w.base] && w.handled == {} && w.wiped == {}
      ensures found ==> w.pc == if !w.obj.deleting then Creating(AddFinalizer)
                                else if w.obj.finalizer then Ending(FirstEnd(w.obj.policy)) else Idle
      ensures !found ==> w.pc == Idle
      ensures Used(old(script))
      ensures found <==> old(script) != [] && tick.reply.Read? && old(seen) <= tick.reply.version < |hist|
      ensures found ==> w.base == tick.reply.version
    {
      hide Run, AllForeign, Ahead, Begun, Answered;
      var t := Call();
      if t.None? {
        return false;
      }
      var reply := t.value.reply;
      assert Answers(Cluster(), tick, reply);
      found := reply.Read? && seen <= reply.version < |hist|;
      if !found {
        Commit(reply, Now());
        return;
      }
      var obj := hist[reply.version];
      var pc := Idle;
      if !obj.deleting {
        pc := Creating(AddFinalizer);
      } else if obj.finalizer {
        pc := Ending(FirstEnd(obj.policy));
      }
      Commit(reply, Now().(seen := reply.version, worker := Worker(pc, obj, reply.version, {}, {})));
    }

    /* ---------- secrets ---------- */

    method EnsureFinalizer() returns (ok: bool)
      requires Valid() && w.pc == Creating(AddFinalizer)
      modifies this
      ensures Valid() && Continues(old(trace), old(Ahead()))
      ensures w.pc == if ok then Creating(CheckAuth) else Idle
      ensures ok ==> w.obj.finalizer
      ensures old(w).obj.finalizer ==> ok && w.obj == old(w).obj && hist == old(hist)
      ensures ok && !old(w).obj.finalizer ==> w.obj == Last(hist) && w.base == |hist| - 1 && !w.obj.deleting
      ensures old(w).obj.finalizer ==> script == old(script)
      ensures !ok ==> Used(old(script)) && (old(script) == [] || tick.reply != Ok || !alive || Last(hist).deleting)
    {
      hide Run, AllForeign, Ahead, Begun, Answered;
      if w.obj.finalizer {
        Go(Creating(CheckAuth));
        return true;
      }
      var t := Call();
      if t.None? {
        return false;
      }
      assert Answers(Cluster(), tick, t.value.reply);
      if t.value.reply != Ok || !alive || Last(hist).deleting {
        Stop(t.value.reply);
        return false;
      }
      var v := Last(hist).(finalizer := true);
      var hist' := if v == Last(hist) then hist else hist + [v];
      Commit(Ok, Now().(hist := hist', worker := w.(pc := Creating(CheckAuth), obj := v, base := |hist'| - 1)));
      return true;
    }

    /** checkSecret: nothing there, ours, or an error. */
    method CheckSecret(name: string) returns (ok: bool, found: bool)
      requires Valid()
      requires (w.pc == Creating(CheckAuth) && w.obj.authSecret.None? && name == AuthName())
            || (w.pc == Creating(CheckKey) && w.obj.keyFileRequired && name == KeyName(w.obj))
      modifies this
      ensures Valid() && Continues(old(trace), old(Ahead())) && w.obj == old(w).obj
      ensures !ok ==> w.pc == Idle
      ensures ok && old(w).pc == Creating(CheckAuth) ==> w.pc == Creating(if found then PatchAuth else CreateAuth)
      ensures ok && old(w).pc == Creating(CheckKey) ==> w.pc == Creating(if found then PatchKey else CreateKey)
      ensures ok ==> log == old(log) + [Checked(name, if found then Ours else Absent)]
      ensures ok ==> (found <==> name in secrets) && (found ==> secrets[name].ours)
      ensures !ok ==> log == old(log) || (log == old(log) + [Checked(name, Foreign)] && name in secrets && !secrets[name].ours)
      ensures Used(old(script))
      ensures ok <==> old(script) != [] && tick.reply == Ok && !(name in secrets && !secrets[name].ours)
    {
      hide Run, AllForeign, AuthName, KeyName, Ahead, Begun, Answered;
      var auth := w.pc == Creating(CheckAuth);
      var t := Call();
      if t.None? {
        return false, false;
      }
      assert Answers(Cluster(), tick, t.value.reply);
      if t.value.reply != Ok {
        Stop(t.value.reply);
        return false, false;
      }
      var there := if name !in secrets then Absent else if secrets[name].ours then Ours else Foreign;
      var noted := Noted(Now(), Checked(name, there));
      if there == Foreign {
        Commit(Ok, At(noted, Idle));
        return false, false;
      }
      found := there == Ours;
      Commit(Ok, At(noted, Creating(if auth then if found then PatchAuth else CreateAuth else if found then PatchKey else CreateKey)));
      ok := true;
    }

    /** Create the secret, owned by the object; the API refuses a name that is taken. */
    method CreateSecret(name: string) returns (ok: bool)
      requires Valid()
      requires (w.pc == Creating(CreateAuth) && name == AuthName()) || (w.pc == Creating(CreateKey) && name == KeyName(w.obj))
      modifies this
      ensures Valid() && Continues(old(trace), old(Ahead())) && w.obj == old(w).obj
      ensures w.pc == if !ok then Idle else Creating(if old(w).pc == Creating(CreateAuth) then PatchAuth else PatchKey)
      ensures ok ==> name in secrets && secrets[name].owners == {ME} && secrets[name].ours
                     && secrets[name].managedBy == Some(WipeOut.KUBEDB)
      ensures ok ==> name in secrets && log == old(log) + [Created(name, secrets[name].content)]
      ensures !ok ==> log == old(log)
      ensures Used(old(script))
      ensures !ok ==> old(script) == [] || !tick.reply.Made? || name in secrets
    {
      hide Run, AllForeign, AuthName, KeyName, Ahead, Begun, Answered;
      var next := if w.pc == Creating(CreateAuth) then PatchAuth else PatchKey;
      var t := Call();
      if t.None? {
        return false;
      }
      assert Answers(Cluster(), tick, t.value.reply);
      if !t.value.reply.Made? || name in secrets {
        Stop(t.value.reply);
        return false;
      }
      var secret := Secret(true, Some(WipeOut.KUBEDB), {ME}, t.value.reply.content);
      Commit(t.value.reply,
             At(Noted(Now().(secrets := secrets[name := secret]), Created(name, t.value.reply.content)), Creating(next)));
      return true;
    }

    /** Check, create if nothing is there, patch the reference; nothing of that if the copy has one. */
    method EnsureAuthSecret() returns (ok: bool)
      requires Valid() && w.pc == Creating(CheckAuth)
      modifies this
      ensures Valid() && Continues(old(trace), old(Ahead()))
      ensures w.pc == if ok then Creating(CheckKey) else Idle
      ensures old(w).obj.authSecret.Some? ==> ok && w.obj == old(w).obj && hist == old(hist) && secrets == old(secrets)
      ensures ok && old(w).obj.authSecret.None? ==>
                && w.obj == old(w).obj.(authSecret := Some(AuthName())) && Last(hist).authSecret == Some(AuthName())
                && log != [] && Last(log) == Referenced(AuthName())
    {
      hide Run, AllForeign, AuthName, KeyName, Ahead, Begun, Answered;
      if w.obj.authSecret.Some? {
        Go(Creating(CheckKey));
        return true;
      }
      var found;
      ok, found := CheckSecret(AuthName());
      if !ok {
        return;
      }
      if !found {
        ok := CreateSecret(AuthName());
        if !ok {
          return;
        }
      }
      ok := PatchAuthSecret();
    }

    method PatchAuthSecret() returns (ok: bool)
      requires Valid() && w.pc == Creating(PatchAuth)
      modifies this
      ensures Valid() && Continues(old(trace), old(Ahead()))
      ensures w.pc == if ok then Creating(CheckKey) else Idle
      ensures ok ==> && w.obj == old(w).obj.(authSecret := Some(AuthName())) && Last(hist).authSecret == Some(AuthName())
                     && log == old(log) + [Referenced(AuthName())]
      ensures Used(old(script))
      ensures ok <==> old(script) != [] && tick.reply == Ok && alive
    {
      hide Run, AllForeign, AuthName, KeyName, Ahead, Begun, Answered;
      var t := Call();
      if t.None? {
        return false;
      }
      assert Answers(Cluster(), tick, t.value.reply);
      if t.value.reply != Ok || !alive {
        Stop(t.value.reply);
        return false;
      }
      var reference := Some(AuthName());
      var v := Last(hist).(authSecret := reference);
      Commit(Ok, State(if v == Last(hist) then hist else hist + [v], seen, alive, secrets, claims,
                       w.(pc := Creating(CheckKey), obj := w.obj.(authSecret := reference)),
                       log + [Referenced(AuthName())]));
      return true;
    }

    /** The same for the key file, only where one is required. */
    method EnsureKeyFileSecret() returns (ok: bool)
      requires Valid() && w.pc == Creating(CheckKey)
      modifies this
      ensures Valid() && w.pc == Idle && Continues(old(trace), old(Ahead()))
      ensures !old(w).obj.keyFileRequired ==> ok && hist == old(hist) && secrets == old(secrets)
      ensures ok && old(w).obj.keyFileRequired ==>
                && Last(hist).keyFileSecret == Some(KeyName(old(w).obj))
                && log != [] && Last(log) == Referenced(KeyName(old(w).obj))
    {
      hide Run, AllForeign, AuthName, KeyName, Ahead, Begun, Answered;
      if !w.obj.keyFileRequired {
        Go(Idle);
        return true;
      }
      var name := KeyName(w.obj);
      var found;
      ok, found := CheckSecret(name);
      if ok && !found {
        ok := CreateSecret(name);
      }
      if ok {
        ok := PatchKeyFileSecret();
      }
    }

    method PatchKeyFileSecret() returns (ok: bool)
      requires Valid() && w.pc == Creating(PatchKey)
      modifies this
      ensures Valid() && w.pc == Idle && Continues(old(trace), old(Ahead()))
      ensures ok ==> Last(hist).keyFileSecret == Some(KeyName(old(w).obj)) && log == old(log) + [Referenced(KeyName(old(w).obj))]
      ensures Used(old(script))
      ensures ok <==> old(script) != [] && tick.reply == Ok && alive
    {
      hide Run, AllForeign, AuthName, KeyName, Ahead, Begun, Answered;
      var t := Call();
      if t.None? {
        return false;
      }
      assert Answers(Cluster(), tick, t.value.reply);
      if t.value.reply != Ok || !alive {
        Stop(t.value.reply);
        return false;
      }
      var name := KeyName(w.obj);
      var v := Last(hist).(keyFileSecret := Some(name));
      Commit(Ok, State(if v == Last(hist) then hist else hist + [v], seen, alive, secrets, claims,
                       w.(pc := Idle), log + [Referenced(name)]));
      return true;
    }

    /* ---------- termination ---------- */

    /** Owner references of the persistent secrets are removed. */
    method RemoveOwnerFromSecrets() returns (ok: bool)
      requires Valid() && w.pc == Ending(FreeSecrets)
      modifies this
      ensures Valid() && Continues(old(trace), old(Ahead()))
      ensures w == old(w).(pc := w.pc, handled := w.handled, wiped := w.wiped)
      ensures w.pc == if !ok then Idle else Ending(if w.obj.policy == HaltPolicy then RemoveFinalizer else OwnClaims)
      ensures ok ==> SecretsFreed(secrets, w.obj)
      ensures Used(old(script))
      ensures !ok ==> old(script) == [] || SomeSecretFails(secrets, w.obj, tick.failing)
      ensures log == old(log) && w.wiped <= old(w).wiped
    {
      hide Run, AllForeign, Persistent, WithSecrets, Ahead, Begun, Answered, SomeSecretFails;
      var t := Call();
      if t.None? {
        return false;
      }
      var after, done;
      ok, after, done := PatchSecretOwners(secrets, Persistent(w.obj), false, t.value.failing);
      if !ok {
        assert Persistent(w.obj) * done == done;
        SomeDone(done, Persistent(w.obj) * secrets.Keys, secrets.Keys, t.value.failing);
        SecretFails(secrets, w.obj, t.value.failing, done);
        assert Answers(Cluster(), tick, Partly(done));
        Commit(Partly(done), At(Now().(secrets := after), Idle));
        return;
      }
      assert Answers(Cluster(), tick, Ok);
      SecretsAreFreed(secrets, w.obj);
      Commit(Ok, At(Now().(secrets := after), Ending(if w.obj.policy == HaltPolicy then RemoveFinalizer else OwnClaims)));
    }

    /** Claims by selector: not owned any more. */
    method RemoveOwnerFromClaims() returns (ok: bool)
      requires Valid() && w.pc == Ending(FreeClaims)
      modifies this
      ensures Valid() && Continues(old(trace), old(Ahead()))
      ensures w == old(w).(pc := if ok then Ending(FreeSecrets) else Idle, handled := w.handled, wiped := w.wiped)
      ensures ok ==> ClaimsFreed(claims)
      ensures Used(old(script))
      ensures !ok ==> old(script) == [] || SomeClaimFails(claims, tick.failing)
      ensures log == old(log) && w.wiped <= old(w).wiped
    {
      hide Run, AllForeign, WithClaims, Matching, Ahead, Begun, Answered, SomeClaimFails;
      var t := Call();
      if t.None? {
        return false;
      }
      var after, done;
      ok, after, done := PatchClaimOwners(claims, false, t.value.failing);
      if !ok {
        ClaimFails(claims, t.value.failing, done, false);
        assert Answers(Cluster(), tick, Partly(done));
        Commit(Partly(done), At(Now().(claims := after), Idle));
        return;
      }
      assert Answers(Cluster(), tick, Ok);
      ClaimsAreFreed(claims);
      Commit(Ok, At(Now().(claims := after), Ending(FreeSecrets)));
    }

    /** Claims by selector: owned. */
    method EnsureOwnerOfClaims() returns (ok: bool)
      requires Valid() && w.pc == Ending(OwnClaims)
      modifies this
      ensures Valid() && Continues(old(trace), old(Ahead()))
      ensures w == old(w).(pc := if ok then Ending(RemoveFinalizer) else Idle, handled := w.handled, wiped := w.wiped)
      ensures ok ==> w.handled == Matching(claims) && ClaimsOwned(claims, w.handled)
      ensures Used(old(script))
      ensures !ok ==> old(script) == [] || SomeClaimFails(claims, tick.failing)
      ensures log == old(log) && w.wiped <= old(w).wiped
    {
      hide Run, AllForeign, WithClaims, Matching, Ahead, Begun, Answered, SomeClaimFails;
      var t := Call();
      if t.None? {
        return false;
      }
      var after, done;
      ok, after, done := PatchClaimOwners(claims, true, t.value.failing);
      if !ok {
        ClaimFails(claims, t.value.failing, done, true);
        assert Answers(Cluster(), tick, Partly(done));
        Commit(Partly(done), At(Now().(claims := after), Idle));
        return;
      }
      assert Answers(Cluster(), tick, Ok);
      ClaimsAreOwned(claims);
      Commit(Ok, Now().(claims := after, worker := w.(pc := Ending(RemoveFinalizer), handled := Matching(claims))));
    }

    /** wipeOutDatabase: which secrets is decided over the peers, then they get the owner. */
    method WipeOutSecrets() returns (ok: bool)
      requires Valid() && w.pc == Ending(WipeSecrets)
      modifies this
      ensures Valid() && Continues(old(trace), old(Ahead()))
      ensures w == old(w).(pc := if ok then Ending(OwnClaims) else Idle, handled := w.handled, wiped := w.wiped)
      ensures ok ==> tick.reply.Peers? && log != [] && log == old(log) + [Last(log)] && SecretsOwned(secrets, w.wiped)
      ensures ok ==> && Last(log).WipedOut? && Last(log).snapshot == w.obj && Last(log).databases == tick.reply.databases
                     && Last(log).names == w.wiped && JustThoseMeant(w.obj, tick.reply.databases, Last(log).before, w.wiped)
      ensures !ok ==> log == old(log)
      ensures Used(old(script))
    {
      hide Run, AllForeign, WithSecrets, PersistentList, Ahead, Begun, Answered;
      var t := Call();
      if t.None? {
        return false;
      }
      if !t.value.reply.Peers? {
        Abandon();
        return false;
      }
      var databases := t.value.reply.databases;
      var unused := WipeOut.UnusedSecrets(NAME, databases, PersistentList(w.obj), Seen(secrets), t.value.unreadable);
      if unused.None? {
        Abandon();
        return false;
      }
      var targets := set n | n in unused.value && n in secrets;
      assert targets == Wiped(Now(), databases);
      var after, done;
      ok, after, done := PatchSecretOwners(secrets, targets, true, t.value.failing);
      assert targets * secrets.Keys == targets;
      if !ok {
        assert targets * done == done;
        assert Answers(Cluster(), tick, PeersPartly(databases, done));
        Commit(PeersPartly(databases, done), At(Now().(secrets := after), Idle));
        return;
      }
      assert Answers(Cluster(), tick, Peers(databases));
      WipedAreOwned(secrets, targets);
      WipedIsMeant(Now(), databases);
      Commit(Peers(databases), State(hist, seen, alive, after, claims, w.(pc := Ending(OwnClaims), wiped := targets),
                                     log + [WipedOut(w.obj, databases, secrets, targets)]));
    }

    /** The peers could not be listed, or a secret could not be read: nothing is patched. */
    method Abandon()
      requires Valid() && w.pc == Ending(WipeSecrets) && Answers(Cluster(), tick, Fail)
      modifies this
      ensures Valid() && w == old(w).(pc := Idle) && secrets == old(secrets) && log == old(log) && script == old(script) && tick == old(tick)
      ensures old(trace) <= trace && Ahead() == old(Answered(Fail))
    {
      hide Run, AllForeign, WithSecrets, WithClaims, Wiped, Ahead, Answered;
      Stop(Fail);
    }

    /** terminate: by policy. What the policy asks for is done when it succeeds. */
    method Terminate() returns (ok: bool)
      requires Valid() && w.pc == Ending(FirstEnd(w.obj.policy))
      modifies this
      ensures Valid() && Continues(old(trace), old(Ahead()))
      ensures w == old(w).(pc := if ok then Ending(RemoveFinalizer) else Idle, handled := w.handled, wiped := w.wiped)
      ensures ok && Inv(origin) ==> OffshootSafety.Outcome(w.obj, secrets, claims, w.handled, w.wiped)
      ensures ok && w.obj.policy == WipeOutPolicy ==> HasWiped(log, w.obj, w.wiped)
    {
      hide Run, AllForeign, Cluster, Ahead, Inv;
      if w.obj.policy == HaltPolicy {
        ok := RemoveOwnerFromClaims();
        if ok {
          ok := RemoveOwnerFromSecrets();
        }
      } else {
        if w.obj.policy == WipeOutPolicy {
          ok := WipeOutSecrets();
        } else {
          ok := RemoveOwnerFromSecrets();
        }
        if ok {
          ok := EnsureOwnerOfClaims();
        }
      }
      if ok && Inv(origin) {
        OutcomeReached();
      }
    }

    lemma OutcomeReached()
      requires Valid() && Inv(origin) && w.pc == Ending(RemoveFinalizer)
      ensures OffshootSafety.Outcome(w.obj, secrets, claims, w.handled, w.wiped)
    {
      RunKeepsInvFrom(origin, trace);
    }

    method PatchFinalizerAway() returns (ok: bool)
      requires Valid() && w.pc == Ending(RemoveFinalizer)
      modifies this
      ensures Valid() && w.pc == Idle && Continues(old(trace), old(Ahead()))
      ensures ok ==> !alive && !Last(hist).finalizer
      ensures ok ==> log == old(log) + [Released(w.base, w.obj, secrets, claims, w.handled, w.wiped)]
      ensures Used(old(script))
      ensures !ok ==> old(script) == [] || tick.reply != Ok || !alive
    {
      hide Run, AllForeign, WithSecrets, WithClaims, Wiped, Persistent, Ahead, Begun, Answered;
      var t := Call();
      if t.None? {
        return false;
      }
      assert Answers(Cluster(), tick, t.value.reply);
      if t.value.reply != Ok || !alive {
        Stop(t.value.reply);
        return false;
      }
      var v := Last(hist).(finalizer := false);
      Commit(Ok, State(if v == Last(hist) then hist else hist + [v], seen, false, secrets, claims, w.(pc := Idle),
                       log + [Released(w.base, w.obj, secrets, claims, w.handled, w.wiped)]));
      return true;
    }

    /** One attempt of the worker: the cluster is then one the step system may come to on the same
        script, and what every run promises holds. */
    method RunMongoDB()
      requires Valid() && w.pc == Idle
      modifies this
      ensures Valid() && w.pc == Idle
      ensures old(trace) <= trace && Cluster() in Attempted(old(Cluster()), old(script))
      ensures Inv(origin) ==> Inv(Cluster())
    {
      hide Run, AllForeign, Inv, Attempted;
      Attempt();
      if Inv(origin) {
        RunKeepsInvFrom(origin, trace);
      }
    }

    method Attempt()
      requires Valid() && w.pc == Idle
      modifies this
      ensures Valid() && w.pc == Idle
      ensures old(trace) <= trace && Cluster() in Attempted(old(Cluster()), old(script))
    {
      hide Run, AllForeign, Attempted;
      Follow();
      assert Cluster() in Ahead();
    }

    method Follow()
      requires Valid() && w.pc == Idle
      modifies this
      ensures Valid() && w.pc == Idle && Continues(old(trace), old(Begun()))
    {
      hide Run, AllForeign, Cluster, Ahead, Begun;
      var found := Get();
      if !found {
        return;
      }
      if w.obj.deleting {
        if w.obj.finalizer {
          var terminated := Terminate();
          if terminated {
            var released := PatchFinalizerAway();
          }
        }
        return;
      }
      var ok := EnsureFinalizer();
      if ok {
        ok := EnsureAuthSecret();
        if ok {
          ok := EnsureKeyFileSecret();
        }
      }
    }
  }
}
