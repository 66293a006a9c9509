/** One health round of one database, as the goroutine does it: clients on the heap, deferred
    closes, the array of ping errors, and the status writes that come out. */
module HealthRound {
  import opened Common
  import opened Conditions
  import opened Operator

  /** The three status writes a round can make. */
  datatype Write = WriteBothFalse | WriteAccepting | WriteReady

  /** How the world answers: which targets can be connected to and pinged, and which status
      writes get through. Target 0 is the database or the config servers, then come the shards,
      then mongos. */
  datatype World = World(connects: nat -> bool, pings: nat -> bool, stores: Write -> bool)

  function Targets(sharded: bool, shards: nat): nat {
    if sharded then shards + 2 else 1
  }

  predicate AllConnect(w: World, n: nat) {
    forall t: nat | t < n :: w.connects(t)
  }

  predicate AllPing(w: World, n: nat) {
    forall t: nat | t < n :: w.pings(t)
  }

  /** Every client ever made, in order: a client cannot come into being without being entered. */
  class Ledger {
    ghost var clients: seq<Client>

    constructor ()
      ensures clients == []
    {
      clients := [];
    }
  }

  class Client {
    const target: nat
    var closes: nat

    constructor (ledger: Ledger, target: nat)
      modifies ledger
      ensures this.target == target && closes == 0
      ensures ledger.clients == old(ledger.clients) + [this]
    {
      this.target, this.closes := target, 0;
      new;
      ledger.clients := ledger.clients + [this];
    }

    method Close()
      modifies this
      ensures closes == old(closes) + 1
    {
      closes := closes + 1;
    }
  }

  /** Clients of the first targets, all different, each closed exactly once. */
  ghost predicate ClosedOnce(clients: seq<Client>, from: nat)
    reads clients
  {
    && (forall i | 0 <= i < |clients| :: clients[i].target == from + i && clients[i].closes == 1)
    && (forall i, j | 0 <= i < j < |clients| :: clients[i] != clients[j])
  }

  method GetMongoClient(ledger: Ledger, w: World, target: nat) returns (client: Client?)
    modifies ledger
    ensures client != null <==> w.connects(target)
    ensures client != null ==> fresh(client) && client.target == target && client.closes == 0
    ensures ledger.clients == old(ledger.clients) + if client != null then [client] else []
  {
    if w.connects(target) {
      client := new Client(ledger, target);
    } else {
      client := null;
    }
  }

  /** What reaches the status in a round with `n` targets. */
  ghost predicate RightWrites(w: World, n: nat, writes: seq<Write>) {
    && (WriteBothFalse in writes <==> !AllConnect(w, n) && w.stores(WriteBothFalse))
    && (WriteAccepting in writes <==> AllConnect(w, n) && w.stores(WriteAccepting))
    && (WriteReady in writes <==> AllConnect(w, n) && w.stores(WriteAccepting) && AllPing(w, n) && w.stores(WriteReady))
    && (writes == [] || writes == [WriteBothFalse] || writes == [WriteAccepting] || writes == [WriteAccepting, WriteReady])
  }

  /** A connection failed: both conditions go down in one write, and nothing else is written. */
  method UpdateErrorAcceptingConnections(w: World, ghost n: nat) returns (writes: seq<Write>)
    requires !AllConnect(w, n)
    ensures RightWrites(w, n, writes)
  {
    writes := if w.stores(WriteBothFalse) then [WriteBothFalse] else [];
  }

  /** The whole body of the goroutine. Every client made meanwhile is closed exactly once, on
      every path; after a connection failure none is made any more. */
  method CheckDatabase(ledger: Ledger, sharded: bool, shards: nat, w: World)
      returns (writes: seq<Write>, ghost clients: seq<Client>)
    modifies ledger
    ensures ledger.clients == old(ledger.clients) + clients
    ensures RightWrites(w, Targets(sharded, shards), writes)
    ensures fresh(clients) && ClosedOnce(clients, 0)
    ensures AllConnect(w, |clients|) && |clients| <= Targets(sharded, shards)
    ensures |clients| < Targets(sharded, shards) ==> !w.connects(|clients|)
  {
    var client := GetMongoClient(ledger, w, 0);
    if client == null {
      writes := UpdateErrorAcceptingConnections(w, Targets(sharded, shards));
      clients := [];
      return;
    }
    ghost var others := [];
    if sharded {
      writes, others := CheckShards(ledger, shards, w);
    } else {
      writes := Report(w, 1);
    }
    client.Close();
    clients := [client] + others;
  }

  /** The part of the sharded branch behind the deferred close of the config server client. */
  method CheckShards(ledger: Ledger, shards: nat, w: World) returns (writes: seq<Write>, ghost clients: seq<Client>)
    requires w.connects(0)
    modifies ledger
    ensures ledger.clients == old(ledger.clients) + clients
    ensures RightWrites(w, shards + 2, writes)
    ensures fresh(clients) && ClosedOnce(clients, 1)
    ensures AllConnect(w, |clients| + 1) && |clients| <= shards + 1
    ensures |clients| < shards + 1 ==> !w.connects(|clients| + 1)
  {
    var shardPingErrors := new bool[shards];
    clients := [];
    for i := 0 to shards
      invariant |clients| == i && fresh(shardPingErrors) && fresh(clients) && ClosedOnce(clients, 1)
      invariant AllConnect(w, i + 1) && ledger.clients == old(ledger.clients) + clients
      invariant forall k | 0 <= k < i :: shardPingErrors[k] <==> !w.pings(k + 1)
    {
      var shard := GetMongoClient(ledger, w, i + 1);
      if shard == null {
        writes := UpdateErrorAcceptingConnections(w, shards + 2);
        return;
      }
      shardPingErrors[i] := PingAndClose(w, shard);
      clients := clients + [shard];
    }
    var mongos := GetMongoClient(ledger, w, shards + 1);
    if mongos == null {
      writes := UpdateErrorAcceptingConnections(w, shards + 2);
      return;
    }
    writes := ReportShards(w, shards, shardPingErrors);
    mongos.Close();
    clients := clients + [mongos];
  }

  method PingAndClose(w: World, client: Client) returns (failed: bool)
    modifies client
    ensures failed <==> !w.pings(client.target)
    ensures client.closes == old(client.closes) + 1
  {
    failed := !w.pings(client.target);
    client.Close();
  }

  /** All connections stand: AcceptingConnection first, Ready only if the pings succeed too. */
  method Report(w: World, n: nat) returns (writes: seq<Write>)
    requires n == 1 && AllConnect(w, n)
    ensures RightWrites(w, n, writes)
  {
    if !w.stores(WriteAccepting) {
      return [];
    }
    if !w.pings(0) {
      return [WriteAccepting];
    }
    writes := UpdateDatabaseReady(w, n);
  }

  method ReportShards(w: World, shards: nat, shardPingErrors: array<bool>) returns (writes: seq<Write>)
    requires AllConnect(w, shards + 2)
    requires shardPingErrors.Length == shards
    requires forall k | 0 <= k < shards :: shardPingErrors[k] <==> !w.pings(k + 1)
    ensures RightWrites(w, shards + 2, writes)
  {
    if !w.stores(WriteAccepting) {
      return [];
    }
    for i := 0 to shards
      invariant forall t: nat | 1 <= t <= i :: w.pings(t)
    {
      if shardPingErrors[i] {
        assert !w.pings(i + 1);
        return [WriteAccepting];
      }
    }
    if !w.pings(0) {
      return [WriteAccepting];
    }
    if !w.pings(shards + 1) {
      return [WriteAccepting];
    }
    writes := UpdateDatabaseReady(w, shards + 2);
  }

  /** AcceptingConnection is written, and every ping succeeded: Ready may follow. */
  method UpdateDatabaseReady(w: World, ghost n: nat) returns (writes: seq<Write>)
    requires AllConnect(w, n) && AllPing(w, n) && w.stores(WriteAccepting)
    ensures RightWrites(w, n, writes)
  {
    writes := if w.stores(WriteReady) then [WriteAccepting, WriteReady] else [WriteAccepting];
  }

  /* ---------- the round as events of the operator ---------- */

  /** The events a round on the given version amounts to. */
  function EventsOf(writes: seq<Write>, version: nat): seq<Event> {
    if writes == [] then []
    else if writes == [WriteBothFalse] then [HealthFailed(version)]
    else if writes == [WriteAccepting] then [HealthConnected(version), HealthStopped]
    else [HealthConnected(version), HealthPinged]
  }

  /** A round with nothing in between leaves AcceptingConnection as the connections were, unless a
      newer generation has spoken already. Ready follows the pings only upwards: a failed
      connection takes it down, a failed ping leaves it as it was. */
  lemma RoundTellsTheTruth(s: State, w: World, n: nat, writes: seq<Write>, version: nat)
    requires s.hist != [] && Checkable(s, version) && RightWrites(w, n, writes)
    requires forall wr :: w.stores(wr)
    requires UniqueKinds(Current(s).conditions)
    requires forall c <- Current(s).conditions :: c.observedGeneration <= s.hist[version].generation
    ensures var t := Run(s, EventsOf(writes, version));
            && t.hist != []
            && (IsConditionTrue(Current(t).conditions, ACCEPTING_CONNECTION) <==> AllConnect(w, n))
            && (IsConditionTrue(Current(t).conditions, READY) <==>
                  AllConnect(w, n) && (AllPing(w, n) || IsConditionTrue(Current(s).conditions, READY)))
  {
    var g := s.hist[version].generation;
    var now := Current(s).conditions;
    hide Apply, SetCondition, BothFalse, IsConditionTrue;
    if !AllConnect(w, n) {
      assert writes == [WriteBothFalse];
      RunsOne(s, HealthFailed(version));
      ConditionsAfter(s, version);
      DownTakesBoth(now, g);
    } else {
      UpTakesAccepting(now, g);
      ConditionsAfter(s, version);
      if AllPing(w, n) {
        assert writes == [WriteAccepting, WriteReady];
        RunsTwo(s, HealthConnected(version), HealthPinged);
      } else {
        assert writes == [WriteAccepting];
        RunsTwo(s, HealthConnected(version), HealthStopped);
      }
    }
  }

  /** Whatever connects, pings and is stored: the goroutine is through with its round. */
  lemma RoundRests(s: State, w: World, n: nat, writes: seq<Write>, version: nat)
    requires s.hist != [] && Checkable(s, version) && RightWrites(w, n, writes)
    ensures Run(s, EventsOf(writes, version)).health == Resting
  {
    hide Apply;
    EndsRest(s, version);
    if writes == [WriteBothFalse] {
      RunsOne(s, HealthFailed(version));
    } else if writes == [WriteAccepting] {
      RunsTwo(s, HealthConnected(version), HealthStopped);
    } else if writes != [] {
      RunsTwo(s, HealthConnected(version), HealthPinged);
    }
  }

  lemma EndsRest(s: State, version: nat)
    requires s.hist != [] && Checkable(s, version)
    ensures var connected := Apply(s, HealthConnected(version));
            && Apply(s, HealthFailed(version)).health == Resting && Apply(connected, HealthStopped).health == Resting
            && Apply(connected, HealthPinged).health == Resting
  {
    hide SetCondition, BothFalse, Step;
  }

  lemma ConditionsAfter(s: State, version: nat)
    requires s.hist != [] && Checkable(s, version)
    ensures var g, now := s.hist[version].generation, Current(s).conditions;
            var up := SetCondition(now, Condition(ACCEPTING_CONNECTION, StatusTrue, g, BY_OPERATOR));
            var failed, connected := Apply(s, HealthFailed(version)), Apply(s, HealthConnected(version));
            var pinged, stopped := Apply(connected, HealthPinged), Apply(connected, HealthStopped);
            && failed.hist != [] && Current(failed).conditions == BothFalse(now, g)
            && stopped.hist != [] && Current(stopped).conditions == up
            && pinged.hist != [] && Current(pinged).conditions == SetCondition(up, Condition(READY, StatusTrue, g, BY_OPERATOR))
  {
    hide SetCondition, BothFalse, Step;
    var g, now := s.hist[version].generation, Current(s).conditions;
    var up := SetCondition(now, Condition(ACCEPTING_CONNECTION, StatusTrue, g, BY_OPERATOR));
    var connected := Apply(s, HealthConnected(version));
    assert connected == WriteConditions(s, up).(health := Accepted(g));
    WrittenConditions(s, up);
    WrittenConditions(s, BothFalse(now, g));
    WrittenConditions(connected, SetCondition(up, Condition(READY, StatusTrue, g, BY_OPERATOR)));
  }

  lemma WrittenConditions(s: State, cs: seq<Condition>)
    requires s.hist != []
    ensures WriteConditions(s, cs).hist != [] && Current(WriteConditions(s, cs)).conditions == cs
  {
  }

  lemma DownTakesBoth(cs: seq<Condition>, g: nat)
    requires UniqueKinds(cs) && forall d <- cs :: d.observedGeneration <= g
    ensures !IsConditionTrue(BothFalse(cs, g), ACCEPTING_CONNECTION) && !IsConditionTrue(BothFalse(cs, g), READY)
  {
    var a := Condition(ACCEPTING_CONNECTION, StatusFalse, g, BY_OPERATOR);
    var r := Condition(READY, StatusFalse, g, BY_OPERATOR);
    NewestInstalls(cs, a);
    NewestInstalls(SetCondition(cs, a), r);
    SetFramesOtherKinds(SetCondition(cs, a), r, ACCEPTING_CONNECTION);
  }

  lemma UpTakesAccepting(cs: seq<Condition>, g: nat)
    requires UniqueKinds(cs) && forall d <- cs :: d.observedGeneration <= g
    ensures var up := SetCondition(cs, Condition(ACCEPTING_CONNECTION, StatusTrue, g, BY_OPERATOR));
            var both := SetCondition(up, Condition(READY, StatusTrue, g, BY_OPERATOR));
            && IsConditionTrue(up, ACCEPTING_CONNECTION) && (IsConditionTrue(up, READY) <==> IsConditionTrue(cs, READY))
            && IsConditionTrue(both, ACCEPTING_CONNECTION) && IsConditionTrue(both, READY)
  {
    var a := Condition(ACCEPTING_CONNECTION, StatusTrue, g, BY_OPERATOR);
    var r := Condition(READY, StatusTrue, g, BY_OPERATOR);
    NewestInstalls(cs, a);
    SetFramesOtherKinds(cs, a, READY);
    NewestInstalls(SetCondition(cs, a), r);
    SetFramesOtherKinds(SetCondition(cs, a), r, ACCEPTING_CONNECTION);
  }

  lemma RunsOne(s: State, e: Event)
    ensures Run(s, [e]) == Apply(s, e)
  {
    assert Front([e]) == [];
    hide Apply;
  }

  lemma RunsTwo(s: State, e: Event, f: Event)
    ensures Run(s, [e, f]) == Apply(Apply(s, e), f)
  {
    assert Front([e, f]) == [e];
    RunsOne(s, e);
    hide Apply;
  }

  /** A write no condition is newer than leaves exactly its own status behind. */
  lemma NewestInstalls(cs: seq<Condition>, c: Condition)
    requires UniqueKinds(cs) && forall d <- cs :: d.observedGeneration <= c.observedGeneration
    ensures UniqueKinds(SetCondition(cs, c))
    ensures forall d <- SetCondition(cs, c) :: d.observedGeneration <= c.observedGeneration
    ensures IsConditionTrue(SetCondition(cs, c), c.kind) <==> c.status == StatusTrue
  {
    SetKeepsUniqueKinds(cs, c);
    SetInstalls(cs, c);
  }
}
