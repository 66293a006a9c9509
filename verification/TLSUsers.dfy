/** CreateTLSUsers: mongos first, then every shard, until something fails. Creating is guarded by a
    look at what is there, so a rerun picks up where the failed run stopped. */
module TLSUsers {
  import opened Common

  /** A user of the $external database, as somebody once created it. */
  datatype User = User(name: string, roles: seq<string>)

  /** How one target answers a run: the client cannot be built, usersInfo fails or does not return
      an array, createUser fails (its write may or may not have happened), or all goes well. */
  datatype Reply = ConnectFails | InfoFails | InfoIsNoArray | CreateFails(applied: bool) | Works

  const ROOT := ["root"]

  /** The user lists of the targets: mongos at 0, the shards behind it; or just the database. */
  type Users = seq<set<User>>

  predicate HasUser(users: set<User>, name: string) {
    exists u <- users :: u.name == name
  }

  /** Whether one target's call returns without an error. */
  predicate Passes(users: set<User>, name: string, reply: Reply) {
    reply == Works || reply == InfoIsNoArray || (reply.CreateFails? && HasUser(users, name))
  }

  predicate Creates(users: set<User>, name: string, reply: Reply) {
    !HasUser(users, name) && (reply == Works || reply == CreateFails(true))
  }

  class Servers {
    var users: Users

    constructor (users: Users)
      ensures this.users == users
    {
      this.users := users;
    }

    /** usersInfo, and createUser when it finds nobody. */
    method CreateTLSUser(target: nat, name: string, reply: Reply) returns (ok: bool)
      requires target < |users|
      modifies this
      ensures ok <==> Passes(old(users)[target], name, reply)
      ensures users == if Creates(old(users)[target], name, reply) then old(users)[target := old(users)[target] + {User(name, ROOT)}]
                       else old(users)
    {
      if reply == ConnectFails || reply == InfoFails {
        return false;
      }
      var isArray := reply != InfoIsNoArray;
      if isArray && !HasUser(users[target], name) {
        if reply.CreateFails? {
          if reply.applied {
            users := users[target := users[target] + {User(name, ROOT)}];
          }
          return false;
        }
        users := users[target := users[target] + {User(name, ROOT)}];
      }
      ok := true;
    }

    /** Mongos, then shard after shard, up to the first error. */
    method CreateTLSUsers(sharded: bool, shards: nat, name: string, replies: nat -> Reply) returns (ok: bool)
      requires |users| == if sharded then shards + 1 else 1
      modifies this
      ensures users == Attempted(old(users), name, replies)
      ensures ok <==> GetsPast(old(users), name, replies, |old(users)|)
    {
      ghost var was := users;
      ok := CreateTLSUser(0, name, replies(0));
      if !ok {
        StopsAt(was, users, name, replies, 0);
        return;
      }
      if sharded {
        for i := 0 to shards
          invariant |users| == |was| && GetsPast(was, name, replies, i + 1)
          invariant forall t: nat | t < |was| :: users[t] == if t <= i then After(was, name, replies, t) else was[t]
        {
          ok := CreateTLSUser(i + 1, name, replies(i + 1));
          if !ok {
            StopsAt(was, users, name, replies, i + 1);
            return;
          }
        }
      }
      ok := true;
      assert users == Attempted(was, name, replies);
    }
  }

  /** Whether an attempt gets past the first `n` targets. */
  predicate GetsPast(users: Users, name: string, replies: nat -> Reply, n: nat)
    requires n <= |users|
  {
    forall t: nat | t < n :: Passes(users[t], name, replies(t))
  }

  /** One target after an attempt: reached, and in need of the user, or left alone. */
  function After(users: Users, name: string, replies: nat -> Reply, t: nat): set<User>
    requires t < |users|
  {
    if GetsPast(users, name, replies, t) && Creates(users[t], name, replies(t)) then users[t] + {User(name, ROOT)} else users[t]
  }

  function Attempted(users: Users, name: string, replies: nat -> Reply): (r: Users)
    ensures |r| == |users| && forall t: nat | t < |users| :: r[t] == After(users, name, replies, t)
  {
    seq(|users|, t requires 0 <= t < |users| => After(users, name, replies, t))
  }

  lemma StopsAt(was: Users, now: Users, name: string, replies: nat -> Reply, k: nat)
    requires k < |was| == |now| && GetsPast(was, name, replies, k) && !Passes(was[k], name, replies(k))
    requires forall t: nat | t < |was| :: now[t] == if t <= k then After(was, name, replies, t) else was[t]
    ensures now == Attempted(was, name, replies)
    ensures !GetsPast(was, name, replies, |was|)
  {
    forall t: nat | k < t < |was|
      ensures After(was, name, replies, t) == was[t]
    {
      assert !GetsPast(was, name, replies, t);
    }
  }

  /* ---------- attempts in a row ---------- */

  /** The users after some attempts, each answered differently. */
  function Retried(users: Users, name: string, attempts: seq<nat -> Reply>): (r: Users)
    ensures |r| == |users|
  {
    if attempts == [] then users else Attempted(Retried(users, name, Front(attempts)), name, Last(attempts))
  }

  /** Nobody is ever removed or changed, and at most one user is added anywhere, by any number of
      attempts; a target that has the user keeps exactly what it has. */
  lemma {:induction false} RetriesOnlyAdd(users: Users, name: string, attempts: seq<nat -> Reply>, t: nat)
    requires t < |users|
    ensures var r := Retried(users, name, attempts)[t];
            && (HasUser(users[t], name) ==> r == users[t])
            && (r == users[t] || r == users[t] + {User(name, ROOT)})
  {
    if attempts != [] {
      var before := Retried(users, name, Front(attempts));
      RetriesOnlyAdd(users, name, Front(attempts), t);
      if before[t] != users[t] {
        assert User(name, ROOT) in before[t];
      }
    }
  }

  /** Progress is a prefix: a failed attempt leaves the user on every target before the one it
      failed at, unless usersInfo was unreadable there, and touches nothing behind it. */
  lemma FailedAttemptLeavesAPrefix(users: Users, name: string, replies: nat -> Reply, k: nat)
    requires k < |users| && GetsPast(users, name, replies, k) && !Passes(users[k], name, replies(k))
    ensures var r := Attempted(users, name, replies);
            && (forall t: nat | t < k && replies(t) != InfoIsNoArray :: HasUser(r[t], name))
            && (forall t: nat | k < t < |users| :: r[t] == users[t])
  {
    var r := Attempted(users, name, replies);
    forall t: nat | t < k && replies(t) != InfoIsNoArray
      ensures HasUser(r[t], name)
    {
      assert GetsPast(users, name, replies, t);
      assert Passes(users[t], name, replies(t));
      PassingLeavesTheUser(users, name, replies, t);
    }
    forall t: nat | k < t < |users|
      ensures r[t] == users[t]
    {
      assert !GetsPast(users, name, replies, t);
    }
  }

  lemma PassingLeavesTheUser(users: Users, name: string, replies: nat -> Reply, t: nat)
    requires t < |users| && GetsPast(users, name, replies, t) && Passes(users[t], name, replies(t))
    ensures HasUser(After(users, name, replies, t), name) <==> HasUser(users[t], name) || replies(t) != InfoIsNoArray
  {
    if Creates(users[t], name, replies(t)) {
      assert User(name, ROOT) in After(users, name, replies, t);
    }
  }

  /** A successful attempt leaves the user on all N + 1 targets, exactly unless usersInfo gave no
      array for a target that lacked it. */
  lemma SuccessCoversAll(users: Users, name: string, replies: nat -> Reply)
    requires GetsPast(users, name, replies, |users|)
    ensures (forall t: nat | t < |users| :: HasUser(Attempted(users, name, replies)[t], name)) <==>
              (forall t: nat | t < |users| && replies(t) == InfoIsNoArray :: HasUser(users[t], name))
  {
    forall t: nat | t < |users|
      ensures HasUser(Attempted(users, name, replies)[t], name) <==> HasUser(users[t], name) || replies(t) != InfoIsNoArray
    {
      assert GetsPast(users, name, replies, t);
      PassingLeavesTheUser(users, name, replies, t);
    }
  }

  /** A fault-free attempt after any number of failed ones covers everything. */
  lemma RerunCompletes(users: Users, name: string, attempts: seq<nat -> Reply>, replies: nat -> Reply)
    requires forall t: nat :: replies(t) == Works
    ensures forall t: nat | t < |users| :: HasUser(Retried(users, name, attempts + [replies])[t], name)
  {
    assert Front(attempts + [replies]) == attempts && Last(attempts + [replies]) == replies;
    var before := Retried(users, name, attempts);
    SuccessCoversAll(before, name, replies);
  }
}
