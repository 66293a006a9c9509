/** Which secrets a WipeOut hands to the garbage collector: set arithmetic over the peers in the
    namespace, and a loop that deletes from a set while it walks a snapshot of it. */
module WipeOut {
  import opened Common

  const KUBEDB := "kubedb.com"

  /** A secret as far as this code looks at it: its managed-by label, and who owns it. */
  datatype Secret = Secret(managedBy: Option<string>, owners: set<string>)

  datatype Database = Database(name: string, persistentSecrets: seq<string>)

  /** Secrets the other databases of the namespace refer to. */
  predicate UsedByPeer(name: string, databases: seq<Database>, secret: string) {
    exists db <- databases :: db.name != name && secret in db.persistentSecrets
  }

  predicate Managed(s: Secret) {
    s.managedBy == Some(KUBEDB)
  }

  method SecretsUsedByPeers(name: string, databases: seq<Database>) returns (secretUsed: set<string>)
    ensures forall s :: s in secretUsed <==> UsedByPeer(name, databases, s)
  {
    secretUsed := {};
    for i := 0 to |databases|
      invariant forall s :: s in secretUsed <==> UsedByPeer(name, databases[..i], s)
    {
      var db := databases[i];
      assert databases[..i + 1] == databases[..i] + [db];
      if db.name != name {
        secretUsed := secretUsed + set s | s in db.persistentSecrets;
      }
    }
    assert databases[..|databases|] == databases;
  }

  /** A snapshot of a set, in some order. */
  method ListOf(names: set<string>) returns (list: seq<string>)
    ensures forall s :: s in list <==> s in names
    ensures forall i, j | 0 <= i < j < |list| :: list[i] != list[j]
  {
    list := [];
    var rest := names;
    while rest != {}
      invariant rest <= names
      invariant forall s :: s in list <==> s in names && s !in rest
      invariant forall i, j | 0 <= i < j < |list| :: list[i] != list[j]
      decreases |rest|
    {
      var s :| s in rest;
      list := list + [s];
      rest := rest - {s};
    }
  }

  /** A get of a secret fails for the names listed, and for the empty name. */
  predicate GetFails(failing: set<string>, name: string) {
    name in failing || name == []
  }

  predicate Candidate(name: string, databases: seq<Database>, secrets: seq<string>, s: string) {
    s in secrets && !UsedByPeer(name, databases, s)
  }

  /** The names handed on: candidates, minus those that exist and are not managed by KubeDB. A
      name without a secret stays in, because what is deleted from the set is the name of the
      empty object the failed get returned. None when a get failed otherwise. */
  method UnusedSecrets(name: string, databases: seq<Database>, secrets: seq<string>,
                       stored: map<string, Secret>, failing: set<string>)
      returns (unused: Option<set<string>>)
    ensures unused.None? <==> exists s :: Candidate(name, databases, secrets, s) && (s in failing || s == [])
    ensures unused.Some? ==> forall s :: s in unused.value <==>
              Candidate(name, databases, secrets, s) && (s !in stored || Managed(stored[s]))
  {
    var secretUsed := SecretsUsedByPeers(name, databases);
    var unusedSecrets := (set s | s in secrets) - secretUsed;
    var list := ListOf(unusedSecrets);
    ghost var candidates := unusedSecrets;
    assert forall s :: s in candidates <==> Candidate(name, databases, secrets, s);
    for i := 0 to |list|
      invariant unusedSecrets <= candidates
      invariant forall s :: s != [] ==> (s in unusedSecrets <==>
                  s in candidates && (s in list[..i] ==> s !in stored || Managed(stored[s])))
      invariant forall j | 0 <= j < i :: !GetFails(failing, list[j])
    {
      var unusedSecret := list[i];
      assert forall s :: s in list[..i + 1] <==> s in list[..i] || s == unusedSecret;
      if GetFails(failing, unusedSecret) {
        assert Candidate(name, databases, secrets, unusedSecret);
        return None;
      }
      if unusedSecret !in stored {
        unusedSecrets := unusedSecrets - {[]};
      } else if !Managed(stored[unusedSecret]) {
        unusedSecrets := unusedSecrets - {unusedSecret};
      }
    }
    assert list[..|list|] == list;
    assert [] !in candidates;
    unused := Some(unusedSecrets);
  }

  /** EnsureOwnerReferenceForItems: names without a secret are passed over. */
  function WithOwner(stored: map<string, Secret>, names: set<string>, owner: string): map<string, Secret> {
    map s | s in stored :: if s in names then stored[s].(owners := stored[s].owners + {owner}) else stored[s]
  }

  /** What garbage collection is meant to take: the database's own secrets, not those another
      database of the namespace uses, and only those KubeDB manages. */
  predicate Doomed(name: string, databases: seq<Database>, secrets: seq<string>, stored: map<string, Secret>, s: string) {
    s in stored && s in secrets && !UsedByPeer(name, databases, s) && Managed(stored[s])
  }

  /** A wipe-out gives the owner to exactly the secrets meant, and to no peer's; every other secret,
      and everything else about these, stays as it was. */
  method WipeOutDatabase(name: string, databases: seq<Database>, secrets: seq<string>,
                         stored: map<string, Secret>, failing: set<string>, owner: string)
      returns (ok: bool, after: map<string, Secret>)
    ensures ok <==> !exists s :: Candidate(name, databases, secrets, s) && (s in failing || s == [])
    ensures !ok ==> after == stored
    ensures after.Keys == stored.Keys
    ensures ok ==> forall s <- stored ::
              after[s] == if Doomed(name, databases, secrets, stored, s) then stored[s].(owners := stored[s].owners + {owner}) else stored[s]
    ensures forall s <- stored | UsedByPeer(name, databases, s) :: after[s] == stored[s]
  {
    var unused := UnusedSecrets(name, databases, secrets, stored, failing);
    if unused.None? {
      return false, stored;
    }
    return true, WithOwner(stored, unused.value, owner);
  }
}
