/** The global `game_state` dictionary of main.py and its three endpoints. The dictionary starts as
    `{"towers": []}`; the `players` key is absent until the first `add_player`, so it is modelled as an
    `Option`. `State` is its value, `Step` the effect of one request on it, and `GameState` the mutable
    store whose methods are proved against `Step`. */
module Store {
  import opened Wrappers
  import opened Slots

  /** A registered player, as `{"playerId": playerId}`. */
  datatype Player = Player(playerId: string)

  /** The value of `game_state`: the tower list and the lazily created player list. */
  datatype State = State(towers: seq<Tower>, players: Option<seq<Player>>)

  /** One call of an endpoint: `POST /tower/place`, `GET /state` or `POST /players`. */
  datatype Request = PlaceTower(towerId: string) | GetState | AddPlayer(playerId: string)

  /** The reply of `place_tower`: `{"error": ...}` or `{"message": ..., "current": towers}`. */
  datatype PlaceResponse = Error(error: string) | Placed(message: string, current: seq<Tower>)

  /** The reply of `add_player`: `{"message": ..., "current": players}`. */
  datatype PlayerResponse = PlayerAdded(message: string, current: seq<Player>)

  const InvalidTowerId := "Invalid towerId"
  const TowerPlacedMessage := "Tower placed"
  const PlayerAddedMessage := "Player added"

  /** `game_state` at process start. */
  const Initial := State([], None)

  /** The players list, or the empty list while the key is absent. */
  function PlayersOf(s: State): seq<Player> {
    s.players.GetOr([])
  }

  /** The state after one request: a valid placement appends its record, an invalid one changes
      nothing, reading changes nothing, and a registration creates the list if needed and appends. */
  function Step(s: State, req: Request): State {
    match req
    case PlaceTower(id) =>
      (match SlotFor(id)
       case Some(t) => s.(towers := s.towers + [t])
       case None => s)
    case GetState => s
    case AddPlayer(id) => s.(players := Some(PlayersOf(s) + [Player(id)]))
  }

  /** The state after a sequence of requests handled one at a time, in order. */
  function Run(s: State, reqs: seq<Request>): State
    decreases |reqs|
  {
    if reqs == [] then s else Run(Step(s, reqs[0]), reqs[1..])
  }

  /** The store behind the endpoints. Its invariant: every tower record sits at its station's slot. */
  class GameState {
    var towers: seq<Tower>
    var players: Option<seq<Player>>

    ghost predicate Valid()
      reads this
    {
      AllAtSlots(towers)
    }

    /** The dictionary's current value. */
    function Snapshot(): State
      reads this
    {
      State(towers, players)
    }

    /** `game_state = {"towers": []}`. */
    constructor ()
      ensures Valid()
      ensures Snapshot() == Initial
    {
      towers := [];
      players := None;
    }

    /** `place_tower`: an unknown id is rejected and nothing changes; a station id gets one new record at the
        end of `towers`, earlier records stay as they were, and the reply carries the whole new list.
        `players` is never touched. */
    method PlaceTower(towerId: string) returns (r: PlaceResponse)
      requires Valid()
      modifies this
      ensures Valid()
      ensures Snapshot() == Step(old(Snapshot()), Request.PlaceTower(towerId))
      ensures players == old(players)
      ensures towerId !in Stations ==> r == Error(InvalidTowerId) && towers == old(towers)
      ensures towerId in Stations ==>
                && |towers| == |old(towers)| + 1
                && towers[..|old(towers)|] == old(towers)
                && towers[|old(towers)|] == Tower(towerId, Stations[towerId].0, Stations[towerId].1)
                && r == Placed(TowerPlacedMessage, towers)
    {
      match SlotFor(towerId)
      case None =>
        r := Error(InvalidTowerId);
      case Some(t) =>
        towers := towers + [t];
        r := Placed(TowerPlacedMessage, towers);
    }

    /** `get_state`: the whole state, as it is, and nothing is changed. */
    method GetState() returns (s: State)
      ensures s.towers == towers && s.players == players
    {
      s := Snapshot();
    }

    /** `add_player`: creates the list if the key is absent, then appends the player. Afterwards the list
        exists, it is the old list (or the empty one) plus the new player at the end, `towers` is
        unchanged, and the reply carries the whole list. */
    method AddPlayer(playerId: string) returns (r: PlayerResponse)
      requires Valid()
      modifies this
      ensures Valid()
      ensures Snapshot() == Step(old(Snapshot()), Request.AddPlayer(playerId))
      ensures towers == old(towers)
      ensures players.Some?
      ensures players.value == old(players).GetOr([]) + [Player(playerId)]
      ensures r == PlayerAdded(PlayerAddedMessage, players.value)
    {
      if players.None? {
        players := Some([]);
      }
      players := Some(players.value + [Player(playerId)]);
      r := PlayerAdded(PlayerAddedMessage, players.value);
    }
  }
}
