/** All goroutines of the health checker, over any number of rounds: wg.Add before each go
    statement, wg.Done when a goroutine ends, wg.Wait before the next round. Goroutines end in any
    order, some while others are still being started. */
module HealthRounds {
  import opened Common

  /** A goroutine is known by its round and by the position of its database in that round. */
  datatype Goroutine = Goroutine(round: nat, index: nat, database: string)

  /** A database as the round's listing shows it. */
  datatype Listed = Listed(name: string, deleting: bool, halted: bool)

  predicate Skipped(db: Listed) {
    db.deleting || db.halted
  }

  datatype State = State(
    round: nat,
    list: seq<Listed>,
    next: nat,                   // databases of the list already handled by the loop
    counter: int,                // of the wait group
    running: set<Goroutine>,
    finished: set<Goroutine>)

  datatype Event =
    /** The loop looks at the next database: skip it, or Add and go. */
    | Launch
    /** A goroutine runs its deferred Done. */
    | Finish(goroutine: Goroutine)
    /** Wait returns; the next round lists the databases again. */
    | NextRound(list: seq<Listed>)

  function Apply(s: State, e: Event): State {
    match e
    case Launch =>
      if s.next >= |s.list| then s
      else if Skipped(s.list[s.next]) then s.(next := s.next + 1)
      else s.(next := s.next + 1, counter := s.counter + 1,
              running := s.running + {Goroutine(s.round, s.next, s.list[s.next].name)})
    case Finish(g) =>
      if g !in s.running then s
      else s.(counter := s.counter - 1, running := s.running - {g}, finished := s.finished + {g})
    case NextRound(list) =>
      if s.next >= |s.list| && s.counter == 0 then State(s.round + 1, list, 0, 0, s.running, s.finished) else s
  }

  function Run(events: seq<Event>): State {
    if events == [] then State(0, [], 0, 0, {}, {}) else Apply(Run(Front(events)), Last(events))
  }

  /** The goroutine the loop has started, or will start, for a position of the current list. */
  function At(round: nat, list: seq<Listed>, i: nat): Goroutine
    requires i < |list|
  {
    Goroutine(round, i, list[i].name)
  }

  ghost predicate Inv(s: State) {
    && s.next <= |s.list|
    && s.counter == |s.running|
    && (forall g <- s.running :: g.round == s.round)
    && (forall g <- s.finished :: g !in s.running && g.round <= s.round)
    && AllRightful(s) && AllStarted(s)
  }

  ghost predicate AllRightful(s: State) {
    && (forall g <- s.running | g.round == s.round :: Rightful(s, g))
    && (forall g <- s.finished | g.round == s.round :: Rightful(s, g))
  }

  ghost predicate AllStarted(s: State)
    requires s.next <= |s.list|
  {
    forall i: nat | i < s.next && !Skipped(s.list[i]) ::
      At(s.round, s.list, i) in s.running || At(s.round, s.list, i) in s.finished
  }

  /** Started for a database the loop has passed, and that is neither being deleted nor halted. */
  ghost predicate Rightful(s: State, g: Goroutine) {
    && g.index < s.next <= |s.list| && g == At(s.round, s.list, g.index)
    && !s.list[g.index].deleting && !s.list[g.index].halted
  }

  lemma LaunchKeepsInv(s: State)
    requires Inv(s)
    ensures Inv(Apply(s, Launch))
  {
    var t := Apply(s, Launch);
    LaunchIsRightful(s);
    LaunchStarts(s);
    hide AllRightful, AllStarted;
    if t.running != s.running {
      NextIsNew(s);
      assert t.running == s.running + {At(s.round, s.list, s.next)};
    }
  }

  lemma NextIsNew(s: State)
    requires Inv(s) && s.next < |s.list|
    ensures At(s.round, s.list, s.next) !in s.running && At(s.round, s.list, s.next) !in s.finished
  {
    var g := At(s.round, s.list, s.next);
    assert g in s.running ==> Rightful(s, g);
    assert g in s.finished ==> Rightful(s, g);
  }

  lemma LaunchIsRightful(s: State)
    requires Inv(s)
    ensures AllRightful(Apply(s, Launch))
  {
    hide AllStarted;
    var t := Apply(s, Launch);
    forall g | g in t.running && g.round == t.round
      ensures Rightful(t, g)
    {
      assert g in s.running ==> Rightful(s, g);
    }
    forall g | g in t.finished && g.round == t.round
      ensures Rightful(t, g)
    {
      assert Rightful(s, g);
    }
  }

  lemma LaunchStarts(s: State)
    requires Inv(s)
    ensures AllStarted(Apply(s, Launch))
  {
    hide AllRightful;
  }

  lemma FinishKeepsInv(s: State, g: Goroutine)
    requires Inv(s)
    ensures Inv(Apply(s, Finish(g)))
  {
    var t := Apply(s, Finish(g));
    if g in s.running {
      assert |t.running| == |s.running| - 1;
    }
  }

  lemma ApplyKeepsInv(s: State, e: Event)
    requires Inv(s)
    ensures Inv(Apply(s, e))
  {
    match e {
      case Launch => LaunchKeepsInv(s);
      case Finish(g) => FinishKeepsInv(s, g);
      case NextRound(_) =>
    }
  }

  lemma {:induction false} RunKeepsInv(events: seq<Event>)
    ensures Inv(Run(events))
  {
    if events != [] {
      RunKeepsInv(Front(events));
      ApplyKeepsInv(Run(Front(events)), Last(events));
    }
  }

  /** No goroutine is ever started for a database that is being deleted or halted. */
  lemma SkippedAreNotStarted(events: seq<Event>, g: Goroutine)
    requires g in Run(events).running + Run(events).finished && g.round == Run(events).round
    ensures var list := Run(events).list;
            g.index < |list| && g.database == list[g.index].name && !list[g.index].deleting && !list[g.index].halted
  {
    RunKeepsInv(events);
    assert Rightful(Run(events), g);
  }

  /** Wait returns exactly when the loop is through and no goroutine runs; then the goroutines of
      this round are those of all databases that are neither being deleted nor halted, each done, and
      the next round starts afresh. */
  lemma WaitMeansAllDone(events: seq<Event>, list: seq<Listed>)
    ensures var s, t := Run(events), Run(events + [NextRound(list)]);
            && (t.round != s.round <==> s.next == |s.list| && s.running == {})
            && (t.round != s.round ==>
                  && (set g <- s.finished | g.round == s.round) ==
                       (set i | 0 <= i < |s.list| && !(s.list[i].deleting || s.list[i].halted) :: At(s.round, s.list, i))
                  && t == State(s.round + 1, list, 0, 0, {}, s.finished))
  {
    var s := Run(events);
    RunKeepsInv(events);
    assert Front(events + [NextRound(list)]) == events;
    if s.next == |s.list| && s.counter == 0 {
      assert s.running == {};
      forall g
        ensures g in s.finished && g.round == s.round <==>
                  exists i | 0 <= i < |s.list| && !(s.list[i].deleting || s.list[i].halted) :: g == At(s.round, s.list, i)
      {
        if g in s.finished && g.round == s.round {
          assert Rightful(s, g);
        }
      }
    }
  }

  /** The loop gets through its list, and every goroutine can end: from any state the round comes to
      its end. */
  lemma {:induction false} RoundEnds(events: seq<Event>) returns (more: seq<Event>)
    ensures var s, t := Run(events), Run(events + more);
            t.round == s.round && t.list == s.list && t.next == |t.list| && t.running == {}
    decreases |Run(events).list| - Run(events).next, |Run(events).running|
  {
    var s := Run(events);
    RunKeepsInv(events);
    hide Inv, Apply;
    if s.next == |s.list| && s.running == {} {
      more := [];
      assert events + more == events;
    } else {
      var e := Forward(s);
      assert Front(events + [e]) == events && Last(events + [e]) == e;
      var rest := RoundEnds(events + [e]);
      more := [e] + rest;
      assert events + more == events + [e] + rest;
    }
  }

  lemma Forward(s: State) returns (e: Event)
    requires Inv(s) && !(s.next == |s.list| && s.running == {})
    ensures var t := Apply(s, e);
            && t.round == s.round && t.list == s.list
            && (t.next == s.next + 1 <= |s.list| || (s.next == t.next == |s.list| && |t.running| < |s.running|))
  {
    hide AllRightful, AllStarted;
    e := Launch;
    if s.next == |s.list| {
      var g :| g in s.running;
      e := Finish(g);
      assert |s.running - {g}| == |s.running| - 1;
    }
  }

  /** Rounds never overlap: when the listings name each database once, no database is ever looked
      at by two goroutines, whatever the interleaving. */
  lemma NoOverlap(events: seq<Event>, g: Goroutine, h: Goroutine)
    requires g in Run(events).running && h in Run(events).running && g.database == h.database
    requires var list := Run(events).list; forall i, j | 0 <= i < j < |list| :: list[i].name != list[j].name
    ensures g == h
  {
    RunKeepsInv(events);
    var s := Run(events);
  }

  /** And no goroutine runs twice. */
  lemma {:induction false} FinishedStaysFinished(events: seq<Event>, more: seq<Event>, g: Goroutine)
    requires g in Run(events).finished
    ensures g in Run(events + more).finished && g !in Run(events + more).running
    decreases more
  {
    if more == [] {
      assert events + more == events;
    } else {
      FinishedStaysFinished(events, Front(more), g);
      assert Front(events + more) == events + Front(more) && Last(events + more) == Last(more);
    }
    RunKeepsInv(events + more);
  }
}
