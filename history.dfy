/** What a sequence of endpoint calls does to `game_state`: the tower list only grows at its end, each
    valid placement adds one record (placing the same station twice gives two records), reads change
    nothing, and the player list exists once someone registered and holds every registration in order. */
module History {
  import opened Wrappers
  import opened Slots
  import opened Store

  /** The records the valid placements among `reqs` append, in request order. */
  function Placements(reqs: seq<Request>): seq<Tower>
    decreases |reqs|
  {
    if reqs == [] then []
    else
      (match reqs[0]
       case PlaceTower(id) => (match SlotFor(id) case Some(t) => [t] case None => [])
       case _ => [])
      + Placements(reqs[1..])
  }

  /** The players the registrations among `reqs` add, in request order. */
  function Registrations(reqs: seq<Request>): seq<Player>
    decreases |reqs|
  {
    if reqs == [] then []
    else (if reqs[0].AddPlayer? then [Player(reqs[0].playerId)] else []) + Registrations(reqs[1..])
  }

  /** How many placement requests for `id` there are in `reqs`. */
  function PlaceRequests(reqs: seq<Request>, id: string): nat
    decreases |reqs|
  {
    if reqs == [] then 0
    else (if reqs[0] == PlaceTower(id) then 1 else 0) + PlaceRequests(reqs[1..], id)
  }

  /** How many records of `ts` belong to station `id`. */
  function TowersOf(ts: seq<Tower>, id: string): nat
    decreases |ts|
  {
    if ts == [] then 0
    else (if ts[0].towerId == id then 1 else 0) + TowersOf(ts[1..], id)
  }

  lemma {:induction false} TowersOfAppend(a: seq<Tower>, b: seq<Tower>, id: string)
    ensures TowersOf(a + b, id) == TowersOf(a, id) + TowersOf(b, id)
    decreases |a|
  {
    if a == [] {
      assert a + b == b;
    } else {
      assert (a + b)[1..] == a[1..] + b;
      TowersOfAppend(a[1..], b, id);
    }
  }

  /** The tower list after any sequence of requests is the old list followed by the records of the valid
      placements, in order: nothing is removed, replaced or reordered. */
  lemma {:induction false} RunTowers(s: State, reqs: seq<Request>)
    ensures Run(s, reqs).towers == s.towers + Placements(reqs)
    decreases |reqs|
  {
    if reqs != [] {
      RunTowers(Step(s, reqs[0]), reqs[1..]);
    }
  }

  /** The player list after any sequence of requests is the old list (empty if absent) followed by every
      registration, in order; it is absent afterwards exactly when it was absent before and nobody
      registered. Placements and reads never touch it. */
  lemma {:induction false} RunPlayers(s: State, reqs: seq<Request>)
    ensures PlayersOf(Run(s, reqs)) == PlayersOf(s) + Registrations(reqs)
    ensures Run(s, reqs).players.None? <==> s.players.None? && Registrations(reqs) == []
    decreases |reqs|
  {
    if reqs != [] {
      RunPlayers(Step(s, reqs[0]), reqs[1..]);
    }
  }

  /** Appending never breaks the store's invariant: every record still sits at its station's slot. */
  lemma {:induction false} RunKeepsSlots(s: State, reqs: seq<Request>)
    requires AllAtSlots(s.towers)
    ensures AllAtSlots(Run(s, reqs).towers)
    decreases |reqs|
  {
    if reqs != [] {
      RunKeepsSlots(Step(s, reqs[0]), reqs[1..]);
    }
  }

  lemma {:induction false} PlacementsOf(reqs: seq<Request>, id: string)
    ensures TowersOf(Placements(reqs), id) == if id in Stations then PlaceRequests(reqs, id) else 0
    decreases |reqs|
  {
    if reqs != [] {
      var head := match reqs[0]
                  case PlaceTower(i) => (match SlotFor(i) case Some(t) => [t] case None => [])
                  case _ => [];
      assert Placements(reqs) == head + Placements(reqs[1..]);
      TowersOfAppend(head, Placements(reqs[1..]), id);
      PlacementsOf(reqs[1..], id);
    }
  }

  /** No deduplication: each valid placement of `id` adds its own record, so the number of records for
      a station grows by exactly the number of times it was placed; an unknown id never gets one. */
  lemma NoDedupTowers(s: State, reqs: seq<Request>, id: string)
    ensures TowersOf(Run(s, reqs).towers, id)
            == TowersOf(s.towers, id) + (if id in Stations then PlaceRequests(reqs, id) else 0)
  {
    RunTowers(s, reqs);
    TowersOfAppend(s.towers, Placements(reqs), id);
    PlacementsOf(reqs, id);
  }

  /** Placing the same station twice leaves two identical records for it at the end of the list. */
  lemma PlaceTwice(s: State, id: string)
    requires id in Stations
    ensures var t := Tower(id, Stations[id].0, Stations[id].1);
            Run(s, [PlaceTower(id), PlaceTower(id)]).towers == s.towers + [t, t]
  {
    var t := Tower(id, Stations[id].0, Stations[id].1);
    var s1 := Step(s, PlaceTower(id));
    assert s1.towers == s.towers + [t];
    assert [PlaceTower(id), PlaceTower(id)][1..] == [PlaceTower(id)];
    assert Run(s1, [PlaceTower(id)]) == Step(s1, PlaceTower(id));
  }

  /** Registering the same player twice leaves two identical entries for it at the end of the list. */
  lemma AddPlayerTwice(s: State, id: string)
    ensures Run(s, [AddPlayer(id), AddPlayer(id)]).players == Some(PlayersOf(s) + [Player(id), Player(id)])
  {
    var s1 := Step(s, AddPlayer(id));
    assert PlayersOf(s1) == PlayersOf(s) + [Player(id)];
    assert [AddPlayer(id), AddPlayer(id)][1..] == [AddPlayer(id)];
    assert Run(s1, [AddPlayer(id)]) == Step(s1, AddPlayer(id));
    assert PlayersOf(s1) + [Player(id)] == PlayersOf(s) + [Player(id), Player(id)];
  }

  /** Reading the state changes nothing, however often it is done. */
  lemma {:induction false} ReadsChangeNothing(s: State, reqs: seq<Request>)
    requires forall i :: 0 <= i < |reqs| ==> reqs[i] == GetState
    ensures Run(s, reqs) == s
    decreases |reqs|
  {
    if reqs != [] {
      ReadsChangeNothing(Step(s, reqs[0]), reqs[1..]);
    }
  }

  /** From process start, the state is exactly the valid placements and, once someone registered, the
      registrations. */
  lemma FromStart(reqs: seq<Request>)
    ensures Run(Initial, reqs).towers == Placements(reqs)
    ensures Run(Initial, reqs).players == if Registrations(reqs) == [] then None else Some(Registrations(reqs))
  {
    RunTowers(Initial, reqs);
    RunPlayers(Initial, reqs);
    assert PlayersOf(Initial) + Registrations(reqs) == Registrations(reqs);
    assert Initial.towers + Placements(reqs) == Placements(reqs);
  }
}
