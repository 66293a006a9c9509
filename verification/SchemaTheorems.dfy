/** The schema manager's promises, over every run: any number of resources, any interleaving,
    crashes anywhere, users and outside writers doing what they like to ordinary databases. */
module SchemaTheorems {
  import opened Common
  import opened Conditions
  import opened SchemaStatus
  import opened SchemaProtocol
  import opened SchemaSafety

  function LogOf(databases: map<DatabaseName, set<string>>, events: seq<Event>): seq<Note> {
    Run(Start(databases), events).log
  }

  /* ---------- when a database is dropped ---------- */

  lemma {:induction false} LicenceHasAWitness(log: seq<Note>, u: UID, name: DatabaseName) returns (j: nat)
    requires Licensed(log, u, name)
    ensures j < |log| && log[j] == Listed(u, name, true)
    ensures forall k | j < k < |log| :: log[k] != EntryDeleted(u, name)
  {
    if Last(log) == Listed(u, name, true) {
      j := |log| - 1;
    } else {
      j := LicenceHasAWitness(Front(log), u, name);
      assert forall k | 0 <= k < |log| - 1 :: Front(log)[k] == log[k];
    }
  }

  lemma RunIsSound(databases: map<DatabaseName, set<string>>, events: seq<Event>)
    ensures Sound(LogOf(databases, events))
  {
    RunKeepsInv(databases, events);
  }

  lemma DropHasAListing(log: seq<Note>, i: nat, u: UID, name: DatabaseName) returns (j: nat)
    requires Sound(log) && i < |log| && log[i] == Dropped(u, name)
    ensures j < i && log[j] == Listed(u, name, true)
    ensures forall k | j < k < i :: log[k] != EntryDeleted(u, name)
  {
    assert Justified(log[..i], log[i]);
    j := LicenceHasAWitness(log[..i], u, name);
    assert forall k | 0 <= k < i :: log[..i][k] == log[k];
  }

  /** A drop goes back to a listing of the same resource that saw no collections, and the
      resource's entry has not been deleted in between. */
  lemma DropSafety(databases: map<DatabaseName, set<string>>, events: seq<Event>, i: nat, u: UID, name: DatabaseName)
      returns (j: nat)
    requires i < |LogOf(databases, events)|
    requires LogOf(databases, events)[i] == Dropped(u, name)
    ensures j < i
    ensures LogOf(databases, events)[j] == Listed(u, name, true)
    ensures forall k | j < k < i :: LogOf(databases, events)[k] != EntryDeleted(u, name)
  {
    RunIsSound(databases, events);
    j := DropHasAListing(LogOf(databases, events), i, u, name);
  }

  /** A resource that only ever saw a populated database never causes a drop. */
  lemma PopulatedIsNeverDropped(databases: map<DatabaseName, set<string>>, events: seq<Event>, u: UID)
    requires forall n <- LogOf(databases, events) :: n.Listed? && n.uid == u ==> !n.empty
    ensures forall n <- LogOf(databases, events) :: !(n.Dropped? && n.uid == u)
  {
    var log := LogOf(databases, events);
    RunIsSound(databases, events);
    forall i | 0 <= i < |log|
      ensures !(log[i].Dropped? && log[i].uid == u)
    {
      if log[i].Dropped? && log[i].uid == u {
        var j := DropHasAListing(log, i, u, log[i].name);
        assert false;
      }
    }
  }

  lemma {:induction false} LastOwnHasAPlace(log: seq<Note>, u: UID) returns (j: nat)
    requires LastOwn(log, u).Some?
    ensures j < |log| && log[j] == LastOwn(log, u).value
    ensures forall k | j < k < |log| :: log[k].uid != u
  {
    if Last(log).uid == u {
      j := |log| - 1;
    } else {
      j := LastOwnHasAPlace(Front(log), u);
      assert forall k | 0 <= k < |log| - 1 :: Front(log)[k] == log[k];
    }
  }

  lemma EntryRemovalHasADrop(log: seq<Note>, i: nat, u: UID, name: DatabaseName) returns (j: nat)
    requires Sound(log) && i < |log| && log[i] == EntryDeleted(u, name)
    ensures j < i && log[j] == Dropped(u, name)
    ensures forall k | j < k < i :: log[k].uid != u
  {
    assert Justified(log[..i], log[i]);
    j := LastOwnHasAPlace(log[..i], u);
    assert forall k | 0 <= k < i :: log[..i][k] == log[k];
  }

  /** The drop comes right before the entry goes, with nothing of that resource in between. */
  lemma DropPrecedesEntryRemoval(databases: map<DatabaseName, set<string>>, events: seq<Event>, i: nat, u: UID, name: DatabaseName)
      returns (j: nat)
    requires i < |LogOf(databases, events)|
    requires LogOf(databases, events)[i] == EntryDeleted(u, name)
    ensures j < i && LogOf(databases, events)[j] == Dropped(u, name)
    ensures forall k | j < k < i :: LogOf(databases, events)[k].uid != u
  {
    RunIsSound(databases, events);
    j := EntryRemovalHasADrop(LogOf(databases, events), i, u, name);
  }

  /** Once its entry is gone a resource never drops again. */
  lemma NoDropAfterEntryRemoval(databases: map<DatabaseName, set<string>>, events: seq<Event>, i: nat, j: nat)
    requires i < j < |LogOf(databases, events)|
    requires LogOf(databases, events)[i].EntryDeleted?
    ensures var log := LogOf(databases, events); !(log[j].Dropped? && log[j].uid == log[i].uid)
  {
    var log := LogOf(databases, events);
    RunIsSound(databases, events);
    assert Justified(log[..j], log[j]);
    assert log[..j][i] == log[i];
  }

  /* ---------- what happens to the data ---------- */

  /** What the server holds under a name, if anything. */
  function Data(sv: Server, name: DatabaseName): Option<set<string>> {
    if name in sv.databases then Some(sv.databases[name]) else None
  }

  lemma RegisterSparesData(u: UID, r: Resource, sv: Server, reply: Reply)
    requires r.hist != []
    ensures RegisterStep(u, r, sv, reply).server.databases == sv.databases
  {
    hide PatchStatus, Current;
  }

  lemma DeleteSparesData(u: UID, r: Resource, sv: Server, reply: Reply, name: DatabaseName)
    requires r.hist != []
    ensures var st := DeleteStep(u, r, sv, reply);
            Data(st.server, name) == if Dropped(u, name) in st.notes then None else Data(sv, name)
  {
    hide Current;
  }

  /** A worker step takes a database away when it notes the drop, and then that one only. */
  lemma StepSparesData(u: UID, r: Resource, sv: Server, reply: Reply, name: DatabaseName)
    requires r.hist != []
    ensures var st := Step(u, r, sv, reply);
            Data(st.server, name) == if Dropped(u, name) in st.notes then None else Data(sv, name)
  {
    hide GateStep, RegisterStep, DeleteStep, ChainStep, RestoreStep, Begin, PatchStatus, Noted;
    match r.worker.pc {
      case Registering(_) =>
        RegisterSparesData(u, r, sv, reply);
        RegisterLogsNoDrop(u, r, sv, reply);
      case Deleting(_) => DeleteSparesData(u, r, sv, reply, name);
      case Initializing(_) => JobIsQuiet(u, r, sv, reply, Noted(r.worker, reply));
      case _ =>
    }
  }

  lemma RegisterLogsNoDrop(u: UID, r: Resource, sv: Server, reply: Reply)
    requires r.hist != []
    ensures forall n <- RegisterStep(u, r, sv, reply).notes :: !n.Dropped?
  {
    hide PatchStatus, Current;
  }

  lemma ApplySparesData(s: State, e: Event, name: DatabaseName)
    requires forall collections :: e != WriteDatabase(name, collections)
    ensures s.log <= Apply(s, e).log
    ensures (forall n <- Apply(s, e).log | n !in s.log :: !(n.Dropped? && n.name == name)) && (forall n <- s.log :: !(n.Dropped? && n.name == name)) ==>
              Data(Apply(s, e).server, name) == Data(s.server, name)
  {
    hide Step, UserStep, NewResource;
    if e.Act? && e.uid in s.resources && s.resources[e.uid].hist != [] {
      var st := Step(e.uid, s.resources[e.uid], s.server, e.reply);
      StepSparesData(e.uid, s.resources[e.uid], s.server, e.reply, name);
      if Dropped(e.uid, name) in st.notes {
        assert Dropped(e.uid, name) in s.log + st.notes;
      }
    }
  }

  /** Data nobody drops and nobody else writes is what it was, whatever all the workers do. */
  lemma {:induction false} UndroppedDataStays(databases: map<DatabaseName, set<string>>, events: seq<Event>, name: DatabaseName)
    requires forall n <- LogOf(databases, events) :: !(n.Dropped? && n.name == name)
    requires forall e <- events :: !(e.WriteDatabase? && e.name == name)
    ensures Data(Run(Start(databases), events).server, name) == if name in databases then Some(databases[name]) else None
  {
    if events != [] {
      var before := Run(Start(databases), Front(events));
      ApplySparesData(before, Last(events), name);
      assert forall n <- before.log :: n in LogOf(databases, events);
      UndroppedDataStays(databases, Front(events), name);
    }
  }

  /* ---------- entry and finalizer ---------- */

  /** Whoever carries the finalizer and is not being deleted owns its entry. */
  lemma FinalizerImpliesEntry(databases: map<DatabaseName, set<string>>, events: seq<Event>, u: UID)
    requires u in Run(Start(databases), events).resources
    ensures var s := Run(Start(databases), events);
            var r := s.resources[u];
            r.hist != [] &&
            (Current(r).finalizer && !Current(r).deleting ==> Entry(u, r.name) in s.server.entries)
  {
    RunKeepsInv(databases, events);
  }

  /** The deletion path takes the finalizer off with the entry still there exactly when that
      attempt's look-up failed for another reason than a missing document, on an entry that
      existed. */
  lemma EntryLeftExactlyOnFailedLookup(databases: map<DatabaseName, set<string>>, events: seq<Event>, i: nat)
    requires i < |LogOf(databases, events)| && LogOf(databases, events)[i].Released?
    ensures var log := LogOf(databases, events);
            log[i].entryLeft <==> LastOwn(log[..i], log[i].uid) == Some(FindFailed(log[i].uid, true))
  {
    RunKeepsInv(databases, events);
    var log := LogOf(databases, events);
    assert Justified(log[..i], log[i]);
  }

  /* ---------- children and phases ---------- */

  /** An init job or a restore session presupposes the whole chain, and the chain presupposes
      the finalizer as long as nobody asked for deletion. */
  lemma ChildChain(databases: map<DatabaseName, set<string>>, events: seq<Event>, u: UID)
    requires u in Run(Start(databases), events).resources
    ensures var r := Run(Start(databases), events).resources[u];
            && r.hist != []
            && (Job in r.children || RestoreSession in r.children ==> {ServiceAccount, AccessRequest} <= r.children)
            && (ServiceAccount in r.children || AccessRequest in r.children ==> {SecretEngine, Role} <= r.children)
            && (SecretEngine in r.children || Role in r.children ==> Current(r).finalizer || Current(r).deleting)
            && (AccessRequest in r.children ==> multiset(r.subjects)[r.account] == 1)
            && multiset(r.subjects)[r.account] <= 1
  {
    RunKeepsInv(databases, events);
    var r := Run(Start(databases), events).resources[u];
    assert Parented(r);
    if AccessRequest in r.children {
      assert r.account in multiset(r.subjects);
    }
  }

  lemma RestoreRunsMakeNoJob(databases: map<DatabaseName, set<string>>, events: seq<Event>, n: Note)
    requires n in LogOf(databases, events) && n.JobMade?
    ensures !n.restore
  {
    RunKeepsInv(databases, events);
    var log := LogOf(databases, events);
    var i :| 0 <= i < |log| && log[i] == n;
    assert Justified(log[..i], log[i]);
  }

  /** What a phase written at the end of a run means. */
  lemma ConcludedPhase(databases: map<DatabaseName, set<string>>, events: seq<Event>, n: Note)
    requires n in LogOf(databases, events) && n.Concluded?
    ensures n.sawJob ==>
              (n.phase == Succeeded || n.phase == Failed <==> FiveReady(n.conditions) && IsConditionTrue(n.conditions, JOB_COMPLETED))
    ensures n.restore ==>
              (n.phase == Failed <==> FiveReady(n.conditions) && RestoreReady(n.conditions) && FailedRestoreIn(n.conditions))
  {
    RunKeepsInv(databases, events);
    var log := LogOf(databases, events);
    var i :| 0 <= i < |log| && log[i] == n;
    assert Justified(log[..i], log[i]);
    FailedExactlyWhenRestoreFailed(n.conditions);
    FinalPhaseNeedsTheJob(n.conditions);
  }
}
