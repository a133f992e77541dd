/** SeatMapsService: the five tables updated in place, proved call by call against SeatMaps.Do.
    Each method answers false where the service raises NotFoundException. */
module SeatMapAuthoring {
  import opened Common
  import opened SeatMaps

  class SeatMapsService {
    var maps: map<Id, MapRow>
    var sections: map<Id, Id>
    var tables: map<Id, TableRow>
    var seats: map<Id, SeatRow>
    var versions: seq<Version>
    var nextId: Id

    ghost function Contents(): State
      reads this
    {
      State(maps, sections, tables, seats, versions, nextId)
    }

    constructor ()
      ensures Contents() == EMPTY
    {
      maps, sections, tables, seats, versions, nextId := map[], map[], map[], map[], [], 0;
    }

    method CreateSeatMap(restaurantId: Id) returns (id: Id)
      modifies this
      ensures (Contents(), true) == Do(old(Contents()), Op.CreateSeatMap(restaurantId)) && id == old(nextId)
    {
      id := nextId;
      maps := maps[id := MapRow(restaurantId, false)];
      nextId := nextId + 1;
    }

    method CreateSection(mapId: Id) returns (found: bool)
      modifies this
      ensures (Contents(), found) == Do(old(Contents()), Op.CreateSection(mapId))
    {
      if mapId !in maps { return false; }
      sections := sections[nextId := mapId];
      nextId := nextId + 1;
      return true;
    }

    method DeleteSection(sectionId: Id) returns (found: bool)
      modifies this
      ensures (Contents(), found) == Do(old(Contents()), Op.DeleteSection(sectionId))
      // The section goes and exactly its tables become unsectioned; no table or seat is deleted.
      ensures found <==> sectionId in old(sections)
      ensures found ==> tables.Keys == old(tables.Keys) && forall t :: t in tables ==>
        tables[t] == if old(tables)[t].sectionId == Some(sectionId) then old(tables)[t].(sectionId := None) else old(tables)[t]
      ensures seats == old(seats) && maps == old(maps) && versions == old(versions)
    {
      if sectionId !in sections { return false; }
      // UPDATE ... SET section_id = NULL, row by row.
      var pending := tables.Keys;
      while pending != {}
        invariant pending <= tables.Keys == old(tables.Keys)
        invariant unchanged(`maps) && unchanged(`sections) && unchanged(`seats) && unchanged(`versions) && unchanged(`nextId)
        invariant forall t :: t in tables && t in pending ==> tables[t] == old(tables)[t]
        invariant forall t :: t in tables && t !in pending ==>
          tables[t] == (if old(tables)[t].sectionId == Some(sectionId) then old(tables)[t].(sectionId := None)
                        else old(tables)[t])
        decreases pending
      {
        var t :| t in pending;
        if tables[t].sectionId == Some(sectionId) {
          tables := tables[t := tables[t].(sectionId := None)];
        }
        pending := pending - {t};
      }
      sections := sections - {sectionId};
      assert tables == Do(old(Contents()), Op.DeleteSection(sectionId)).0.tables;
      return true;
    }

    method CreateTable(mapId: Id, sectionId: Option<Id>, number: string) returns (found: bool)
      modifies this
      ensures (Contents(), found) == Do(old(Contents()), Op.CreateTable(mapId, sectionId, number))
    {
      if mapId !in maps { return false; }
      tables := tables[nextId := TableRow(mapId, sectionId, number)];
      nextId := nextId + 1;
      return true;
    }

    method UpdateTable(tableId: Id, sectionId: Option<Id>, number: string) returns (found: bool)
      modifies this
      ensures (Contents(), found) == Do(old(Contents()), Op.UpdateTable(tableId, sectionId, number))
    {
      if tableId !in tables { return false; }
      tables := tables[tableId := TableRow(tables[tableId].mapId, sectionId, number)];
      return true;
    }

    method DeleteTable(tableId: Id) returns (found: bool)
      modifies this
      ensures (Contents(), found) == Do(old(Contents()), Op.DeleteTable(tableId))
      // The table goes, with exactly the seats that stood at it; every other row stays as it was.
      ensures found <==> tableId in old(tables)
      ensures forall s :: s in seats <==> s in old(seats) && !(found && old(seats)[s].tableId == tableId)
      ensures forall s :: s in seats ==> seats[s] == old(seats)[s]
      ensures forall t :: t in tables <==> t in old(tables) && t != tableId
      ensures forall t :: t in tables ==> tables[t] == old(tables)[t]
      ensures maps == old(maps) && sections == old(sections) && versions == old(versions) && nextId == old(nextId)
    {
      if tableId !in tables { return false; }
      seats := map s | s in seats && seats[s].tableId != tableId :: seats[s];
      tables := tables - {tableId};
      return true;
    }

    method BulkCreateSeats(tableId: Id, labels: seq<string>) returns (found: bool)
      modifies this
      ensures (Contents(), found) == Do(old(Contents()), Op.BulkCreateSeats(tableId, labels))
      // One new seat a label, in order, at the table and on its map; ids in use are never reused.
      ensures found <==> tableId in old(tables)
      ensures found ==> nextId == old(nextId) + |labels| && forall k :: 0 <= k < |labels| ==>
        old(nextId) + k in seats && seats[old(nextId) + k] == SeatRow(old(tables)[tableId].mapId, tableId, labels[k])
      ensures forall s :: s in old(seats) && s < old(nextId) ==> s in seats && seats[s] == old(seats)[s]
      ensures tables == old(tables) && sections == old(sections) && maps == old(maps) && versions == old(versions)
    {
      if tableId !in tables { return false; }
      seats := seats + NewSeats(tables[tableId].mapId, tableId, labels, nextId);
      nextId := nextId + |labels|;
      return true;
    }

    method UpdateSeat(seatId: Id, seatLabel: string) returns (found: bool)
      modifies this
      ensures (Contents(), found) == Do(old(Contents()), Op.UpdateSeat(seatId, seatLabel))
    {
      if seatId !in seats { return false; }
      seats := seats[seatId := seats[seatId].(seatLabel := seatLabel)];
      return true;
    }

    method DeleteSeat(seatId: Id) returns (found: bool)
      modifies this
      ensures (Contents(), found) == Do(old(Contents()), Op.DeleteSeat(seatId))
    {
      if seatId !in seats { return false; }
      seats := seats - {seatId};
      return true;
    }

    method Publish(mapId: Id) returns (found: bool)
      modifies this
      ensures (Contents(), found) == Do(old(Contents()), Op.Publish(mapId))
    {
      if mapId !in maps { return false; }
      var snapshot := SnapshotOf(State(maps, sections, tables, seats, versions, nextId), mapId);
      var versionNumber := LastVersion(versions, mapId) + 1;
      versions := versions + [Version(mapId, versionNumber, snapshot)];
      maps := maps[mapId := maps[mapId].(published := true)];
      return true;
    }
  }
}
