/** The fixed placement slots of the three reader stations (main.py:17-32): a tower record and the
    if-chain of `place_tower` that maps a station id to its screen coordinates. */
module Slots {
  import opened Wrappers

  /** A placed tower, as `TowerData` stores it: the station id and its screen coordinates. */
  datatype Tower = Tower(towerId: string, x: int, y: int)

  /** The station table, written as data: station id to its (x, y) slot. */
  const Stations: map<string, (int, int)> :=
    map["LECTEUR_1" := (250, 250), "LECTEUR_2" := (650, 200), "LECTEUR_3" := (950, 450)]

  /** The record `place_tower` builds for `towerId`, or None when the id is not one of the three
      stations. The if-chain agrees with the table: it is total, it rejects exactly the ids outside
      the table, and an accepted id keeps its own id and gets the table's coordinates. */
  function SlotFor(towerId: string): (r: Option<Tower>)
    ensures r.None? <==> towerId !in Stations
    ensures r.Some? ==> r.value == Tower(towerId, Stations[towerId].0, Stations[towerId].1)
  {
    if towerId == "LECTEUR_1" then Some(Tower(towerId, 250, 250))
    else if towerId == "LECTEUR_2" then Some(Tower(towerId, 650, 200))
    else if towerId == "LECTEUR_3" then Some(Tower(towerId, 950, 450))
    else None
  }

  /** The three slots, spelled out. */
  lemma StationSlots()
    ensures SlotFor("LECTEUR_1") == Some(Tower("LECTEUR_1", 250, 250))
    ensures SlotFor("LECTEUR_2") == Some(Tower("LECTEUR_2", 650, 200))
    ensures SlotFor("LECTEUR_3") == Some(Tower("LECTEUR_3", 950, 450))
    ensures forall id :: id !in Stations ==> SlotFor(id) == None
  {
  }

  /** A tower record that a placement could have produced: it sits at its own station's slot. */
  ghost predicate AtSlot(t: Tower) {
    SlotFor(t.towerId) == Some(t)
  }

  /** Every record of a tower list sits at its station's slot. */
  ghost predicate AllAtSlots(ts: seq<Tower>) {
    forall i :: 0 <= i < |ts| ==> AtSlot(ts[i])
  }
}
