# Tower placement store (game-api)

A Dafny model of the in-memory game state behind the game API's three endpoints. The state is a single
dictionary holding a list of placed towers and, once someone has registered, a list of players.

- `POST /tower/place` maps one of the three reader stations (`LECTEUR_1`, `LECTEUR_2`, `LECTEUR_3`) to its
  fixed screen slot and appends a tower record. Any other id gets an error reply and changes nothing.
- `GET /state` returns the state as it is.
- `POST /players` creates the player list the first time it is called and appends the player.

Files:

- `wrappers.dfy`: `Option`, used for the `players` key, which starts out absent.
- `slots.dfy`: the `Tower` record, the station table, and the lookup that `place_tower` does with its
  if-chain.
- `store.dfy`: the state as a value (`State`), one request's effect on it (`Step`), a sequence of requests
  (`Run`), and the `GameState` class. The class has one method per endpoint, and each method is proved
  against `Step`.
- `history.dfy`: lemmas about any sequence of requests. The tower list is append-only. There is no
  deduplication of towers or players. Reads change nothing. The player list exists exactly when
  someone has registered.

The model follows the code. The system's wider design speaks of upserting by device id, badge-to-unit
mapping, wave events, a last-seen badge, a reset endpoint and player deduplication. None of these is in
this code: placement always appends, so placing a station twice gives two records, and players are never
deduplicated. The model does the same.

## Model

| member | source | states |
|---|---|---|
| `Slots.SlotFor` | main.py:24-32 | The lookup is total. It rejects exactly the ids outside the three-station table. An accepted id keeps its own `towerId` and gets that station's fixed coordinates. |
| `Slots.StationSlots` | main.py:25-32 | `LECTEUR_1` maps to (250,250), `LECTEUR_2` to (650,200), `LECTEUR_3` to (950,450). Every other id is rejected. |
| `Store.GameState.constructor` | main.py:15 | The store starts with an empty tower list and no `players` key. Every record sits at its station's slot (trivially). |
| `Store.GameState.PlaceTower` | main.py:23-34 | Unknown id: the reply is `Invalid towerId` and `towers` is unchanged. Station id: `towers` grows by exactly one, the new record is last, earlier records are unchanged and in order, and the reply's `current` is the new list. `players` is never touched. The slot invariant is kept. |
| `Store.GameState.GetState` | main.py:36-38 | Returns the current towers and players exactly, and modifies nothing. |
| `Store.GameState.AddPlayer` | main.py:40-45 | Afterwards `players` exists. It is the old list (or the empty list if the key was absent) with the new player appended at the end. `towers` is unchanged, and the reply's `current` is the whole player list. |
| `History.RunTowers` | main.py:33 | After any sequence of requests, the tower list is the old list followed by the records of the valid placements, in request order. Nothing is removed, replaced or reordered. |
| `History.RunPlayers` | main.py:42-44 | After any sequence of requests, the player list is the old list followed by every registration, in order. It is still absent only if it was absent before and nobody registered. Placements and reads do not affect it. |
| `History.RunKeepsSlots` | main.py:24-33 | If every tower record sits at its own station's slot, that stays true after any sequence of requests. |
| `History.NoDedupTowers` | main.py:33 | A station's record count grows by exactly the number of times it was placed. An unknown id never gets a record. |
| `History.PlaceTwice` | main.py:33 | Placing the same station twice appends two identical records. |
| `History.AddPlayerTwice` | main.py:44 | Registering the same player twice appends two identical entries. |
| `History.ReadsChangeNothing` | main.py:37-38 | Any number of state reads leaves the state exactly as it was. |
| `History.FromStart` | main.py:15 | From process start, the towers are exactly the valid placements. The player list is absent until a registration, and after that it holds exactly the registrations. |

## Left out

- FastAPI app construction, routing and query-parameter binding (main.py:1-5): transport. Each endpoint is a method called with its parameter.
- CORS middleware (main.py:7-13): cross-origin policy, not logic.
- Pydantic validation and `.dict()` serialisation of `TowerData` (main.py:17-20, 33): a `Tower` is a plain datatype, and replies are datatypes, not JSON.
- Concurrency: the code takes no lock. The operations are modelled as sequential calls.
- Aliasing: `get_state` and the replies hand out references to the live Python lists. The model returns sequence values, so it does not capture a caller seeing later changes through a reference it kept.
