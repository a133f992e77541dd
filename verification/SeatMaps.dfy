/** Seat-map authoring and publication: tables and seats are rows edited in place, a published
    version is a frozen snapshot of them. Geometry and display fields are left out. */
module SeatMaps {
  import opened Common

  datatype MapRow = MapRow(restaurantId: Id, published: bool)
  datatype TableRow = TableRow(mapId: Id, sectionId: Option<Id>, number: string)
  datatype SeatRow = SeatRow(mapId: Id, tableId: Id, seatLabel: string)

  datatype SeatSnapshot = SeatSnapshot(id: Id, tableId: Id, seatLabel: string)
  datatype TableSnapshot = TableSnapshot(id: Id, sectionId: Option<Id>, number: string, seats: seq<SeatSnapshot>)
  datatype Snapshot = Snapshot(mapId: Id, restaurantId: Id, sections: seq<Id>, tables: seq<TableSnapshot>)
  datatype Version = Version(mapId: Id, versionNumber: nat, snapshot: Snapshot)

  /** The service's five tables. A version's id is its position in `versions`; every other row
      draws the next unused id, so listing rows by id is listing them in creation order. */
  datatype State = State(
    maps: map<Id, MapRow>, sections: map<Id, Id>, tables: map<Id, TableRow>, seats: map<Id, SeatRow>,
    versions: seq<Version>, nextId: Id)

  const EMPTY := State(map[], map[], map[], map[], [], 0)

  // ----- Queries -----

  function SectionsOfMap(sections: map<Id, Id>, mapId: Id, n: nat): seq<Id> {
    if n == 0 then []
    else
      var before := SectionsOfMap(sections, mapId, n - 1);
      if n - 1 in sections && sections[n - 1] == mapId then before + [n - 1] else before
  }

  function TablesOfMap(tables: map<Id, TableRow>, mapId: Id, n: nat): seq<Id> {
    if n == 0 then []
    else
      var before := TablesOfMap(tables, mapId, n - 1);
      if n - 1 in tables && tables[n - 1].mapId == mapId then before + [n - 1] else before
  }

  /** The map's seats, filtered to one table and mapped to snapshot records. */
  function SeatsOfTable(seats: map<Id, SeatRow>, mapId: Id, tableId: Id, n: nat): seq<SeatSnapshot> {
    if n == 0 then []
    else
      var before := SeatsOfTable(seats, mapId, tableId, n - 1);
      if n - 1 in seats && seats[n - 1].mapId == mapId && seats[n - 1].tableId == tableId
      then before + [SeatSnapshot(n - 1, tableId, seats[n - 1].seatLabel)] else before
  }

  function SnapshotOf(st: State, mapId: Id): Snapshot
    requires mapId in st.maps
  {
    var ids := TablesOfMap(st.tables, mapId, st.nextId);
    Snapshot(mapId, st.maps[mapId].restaurantId, SectionsOfMap(st.sections, mapId, st.nextId),
      seq(|ids|, i requires 0 <= i < |ids| =>
        var row := if ids[i] in st.tables then st.tables[ids[i]] else TableRow(mapId, None, "");
        TableSnapshot(ids[i], row.sectionId, row.number, SeatsOfTable(st.seats, mapId, ids[i], st.nextId))))
  }

  /** The highest version number of the map, or 0. */
  function LastVersion(versions: seq<Version>, mapId: Id): nat {
    if versions == [] then 0
    else
      var before := LastVersion(versions[..|versions| - 1], mapId);
      var last := versions[|versions| - 1];
      if last.mapId == mapId && before < last.versionNumber then last.versionNumber else before
  }

  // ----- Authoring and publication -----

  datatype Op =
    | CreateSeatMap(restaurantId: Id)
    | CreateSection(mapId: Id)
    | DeleteSection(id: Id)
    | CreateTable(mapId: Id, sectionId: Option<Id>, number: string)
    | UpdateTable(tableId: Id, sectionId: Option<Id>, number: string)
    | DeleteTable(tableId: Id)
    | BulkCreateSeats(tableId: Id, labels: seq<string>)
    | UpdateSeat(seatId: Id, seatLabel: string)
    | DeleteSeat(seatId: Id)
    | Publish(mapId: Id)

  function NewSeats(mapId: Id, tableId: Id, labels: seq<string>, nextId: Id): (r: map<Id, SeatRow>)
    ensures forall id :: id in r <==> nextId <= id < nextId + |labels|
    ensures forall id :: id in r ==> r[id] == SeatRow(mapId, tableId, labels[id - nextId])
  {
    if labels == [] then map[]
    else
      var last := |labels| - 1;
      NewSeats(mapId, tableId, labels[..last], nextId)[nextId + last := SeatRow(mapId, tableId, labels[last])]
  }

  /** One authoring call; false is NotFoundException. */
  function Do(st: State, op: Op): (State, bool) {
    match op
    case CreateSeatMap(restaurantId) =>
      (st.(maps := st.maps[st.nextId := MapRow(restaurantId, false)], nextId := st.nextId + 1), true)
    case CreateSection(mapId) =>
      if mapId !in st.maps then (st, false)
      else (st.(sections := st.sections[st.nextId := mapId], nextId := st.nextId + 1), true)
    case DeleteSection(id) =>
      if id !in st.sections then (st, false)
      else
        // Tables of the section become unsectioned rather than being deleted.
        var tables := map t | t in st.tables ::
          if st.tables[t].sectionId == Some(id) then st.tables[t].(sectionId := None) else st.tables[t];
        (st.(tables := tables, sections := st.sections - {id}), true)
    case CreateTable(mapId, sectionId, number) =>
      if mapId !in st.maps then (st, false)
      else (st.(tables := st.tables[st.nextId := TableRow(mapId, sectionId, number)], nextId := st.nextId + 1), true)
    case UpdateTable(tableId, sectionId, number) =>
      if tableId !in st.tables then (st, false)
      else (st.(tables := st.tables[tableId := st.tables[tableId].(sectionId := sectionId, number := number)]), true)
    case DeleteTable(tableId) =>
      if tableId !in st.tables then (st, false)
      else
        var seats := map s | s in st.seats && st.seats[s].tableId != tableId :: st.seats[s];
        (st.(seats := seats, tables := st.tables - {tableId}), true)
    case BulkCreateSeats(tableId, labels) =>
      if tableId !in st.tables then (st, false)
      else
        var created := NewSeats(st.tables[tableId].mapId, tableId, labels, st.nextId);
        (st.(seats := st.seats + created, nextId := st.nextId + |labels|), true)
    case UpdateSeat(seatId, seatLabel) =>
      if seatId !in st.seats then (st, false)
      else (st.(seats := st.seats[seatId := st.seats[seatId].(seatLabel := seatLabel)]), true)
    case DeleteSeat(seatId) =>
      if seatId !in st.seats then (st, false) else (st.(seats := st.seats - {seatId}), true)
    case Publish(mapId) =>
      if mapId !in st.maps then (st, false)
      else
        var version := Version(mapId, LastVersion(st.versions, mapId) + 1, SnapshotOf(st, mapId));
        (st.(versions := st.versions + [version], maps := st.maps[mapId := st.maps[mapId].(published := true)]), true)
  }

  function Run(st: State, ops: seq<Op>): State
    decreases |ops|
  {
    if ops == [] then st else Do(Run(st, ops[..|ops| - 1]), ops[|ops| - 1]).0
  }

  // ----- What a snapshot is -----

  predicate InRange(snapshot: Snapshot, t: nat, i: nat) {
    t < |snapshot.tables| && i < |snapshot.tables[t].seats|
  }

  predicate At(snapshot: Snapshot, t: nat, i: nat, seatId: Id) {
    InRange(snapshot, t, i) && snapshot.tables[t].seats[i].id == seatId
  }

  ghost predicate Lists(snapshot: Snapshot, seatId: Id) {
    exists t: nat, i: nat :: At(snapshot, t, i, seatId)
  }

  /** Every seat stands once, under its own table, and no table stands twice. */
  ghost predicate Partition(snapshot: Snapshot) {
    && (forall t: nat, i: nat :: InRange(snapshot, t, i) ==> snapshot.tables[t].seats[i].tableId == snapshot.tables[t].id)
    && (forall t: nat, u: nat :: t < u < |snapshot.tables| ==> snapshot.tables[t].id != snapshot.tables[u].id)
    && (forall t: nat, i: nat, u: nat, j: nat, seatId ::
          At(snapshot, t, i, seatId) && At(snapshot, u, j, seatId) ==> t == u && i == j)
  }

  ghost predicate RowsOk(st: State) {
    && (forall id :: id in st.maps || id in st.tables || id in st.seats ==> id < st.nextId)
    && (forall id :: id in st.seats ==>
          && st.seats[id].tableId in st.tables
          && st.tables[st.seats[id].tableId].mapId == st.seats[id].mapId)
  }

  ghost predicate VersionsOk(versions: seq<Version>) {
    && (forall v :: 0 <= v < |versions| ==> Partition(versions[v].snapshot) && versions[v].snapshot.mapId == versions[v].mapId)
    && (forall v :: 0 <= v < |versions| ==> versions[v].versionNumber == 1 + CountVersions(versions[..v], versions[v].mapId))
  }

  function CountVersions(versions: seq<Version>, mapId: Id): nat {
    if versions == [] then 0
    else CountVersions(versions[..|versions| - 1], mapId) + (if versions[|versions| - 1].mapId == mapId then 1 else 0)
  }

  // ----- Proofs about the listing functions -----

  lemma {:induction false} TablesListed(tables: map<Id, TableRow>, mapId: Id, n: nat)
    ensures var r := TablesOfMap(tables, mapId, n);
      && (forall id :: id in r <==> id < n && id in tables && tables[id].mapId == mapId)
      && (forall i, j :: 0 <= i < j < |r| ==> r[i] < r[j])
  {
    if n > 0 {
      TablesListed(tables, mapId, n - 1);
      var before, r := TablesOfMap(tables, mapId, n - 1), TablesOfMap(tables, mapId, n);
      forall i, j | 0 <= i < j < |r| ensures r[i] < r[j] {
        assert r[i] == before[i] && before[i] in before;
        if j < |before| { assert r[j] == before[j]; }
      }
    }
  }

  /** A snapshot record of a seat row of that map and table. */
  predicate Records(seats: map<Id, SeatRow>, mapId: Id, tableId: Id, n: nat, seat: SeatSnapshot) {
    seat.id < n && seat.id in seats && seats[seat.id] == SeatRow(mapId, tableId, seat.seatLabel) && seat.tableId == tableId
  }

  lemma {:induction false} SeatsListed(seats: map<Id, SeatRow>, mapId: Id, tableId: Id, n: nat)
    ensures var r := SeatsOfTable(seats, mapId, tableId, n);
      && (forall seat :: seat in r <==> Records(seats, mapId, tableId, n, seat))
      && (forall i, j :: 0 <= i < j < |r| ==> r[i].id < r[j].id)
  {
    if n > 0 {
      SeatsListed(seats, mapId, tableId, n - 1);
      var before, r := SeatsOfTable(seats, mapId, tableId, n - 1), SeatsOfTable(seats, mapId, tableId, n);
      forall seat ensures seat in r <==> Records(seats, mapId, tableId, n, seat) {
        assert seat in before <==> Records(seats, mapId, tableId, n - 1, seat);
        assert seat in r <==> seat in before || (r != before && seat == r[|before|]);
      }
      forall i, j | 0 <= i < j < |r| ensures r[i].id < r[j].id {
        assert r[i] == before[i] && before[i] in before;
        assert Records(seats, mapId, tableId, n - 1, before[i]);
        if j < |before| { assert r[j] == before[j]; }
      }
    }
  }

  /** Entry `t` of the snapshot is the map's t-th table, with exactly its seats in order. */
  ghost predicate TableIsListed(st: State, mapId: Id, t: nat)
    requires mapId in st.maps
  {
    var ids := TablesOfMap(st.tables, mapId, st.nextId);
    && t < |ids| && ids[t] in st.tables
    && var entry := SnapshotOf(st, mapId).tables[t];
       && entry.id == ids[t] && entry.sectionId == st.tables[ids[t]].sectionId
       && (forall seat :: seat in entry.seats <==> Records(st.seats, mapId, ids[t], st.nextId, seat))
       && (forall i, j :: 0 <= i < j < |entry.seats| ==> entry.seats[i].id < entry.seats[j].id)
  }

  lemma OneTableListed(st: State, mapId: Id, t: nat)
    requires mapId in st.maps && t < |TablesOfMap(st.tables, mapId, st.nextId)|
    ensures TableIsListed(st, mapId, t)
  {
    var ids := TablesOfMap(st.tables, mapId, st.nextId);
    TablesListed(st.tables, mapId, st.nextId);
    SeatsListed(st.seats, mapId, ids[t], st.nextId);
    assert ids[t] in ids;
  }

  lemma SeatIsListed(st: State, mapId: Id, id: Id)
    requires RowsOk(st) && mapId in st.maps && id in st.seats && st.seats[id].mapId == mapId
    ensures Lists(SnapshotOf(st, mapId), id)
  {
    var row := st.seats[id];
    var ids := TablesOfMap(st.tables, mapId, st.nextId);
    SeatTableBelow(st, id);
    TablesListed(st.tables, mapId, st.nextId);
    var t: nat :| t < |ids| && ids[t] == row.tableId;
    OneTableListed(st, mapId, t);
    var seat := SeatSnapshot(id, row.tableId, row.seatLabel);
    assert Records(st.seats, mapId, row.tableId, st.nextId, seat);
    var i: nat :| i < |SnapshotOf(st, mapId).tables[t].seats| && SnapshotOf(st, mapId).tables[t].seats[i] == seat;
    assert At(SnapshotOf(st, mapId), t, i, id);
  }

  /** Publishing partitions the map: the snapshot lists exactly the map's seats, each once,
      under its own table and with that table's current section. */
  lemma PublishPartitionsSeats(st: State, mapId: Id)
    requires RowsOk(st) && mapId in st.maps
    ensures var snapshot := SnapshotOf(st, mapId);
      && Partition(snapshot)
      && (forall id :: Lists(snapshot, id) <==> id in st.seats && st.seats[id].mapId == mapId)
      && (forall t: nat, i: nat :: InRange(snapshot, t, i) ==>
            var table, seat := snapshot.tables[t], snapshot.tables[t].seats[i];
            && seat.id in st.seats && table.id == st.seats[seat.id].tableId && seat.seatLabel == st.seats[seat.id].seatLabel
            && table.id in st.tables && table.sectionId == st.tables[table.id].sectionId)
  {
    var snapshot := SnapshotOf(st, mapId);
    var ids := TablesOfMap(st.tables, mapId, st.nextId);
    hide SnapshotOf, TablesOfMap, TableIsListed, Partition;
    forall t: nat | t < |ids| ensures TableIsListed(st, mapId, t) { OneTableListed(st, mapId, t); }
    forall id | id in st.seats && st.seats[id].mapId == mapId ensures Lists(snapshot, id) { SeatIsListed(st, mapId, id); }
    ListedTablesPartition(st, mapId);
  }

  lemma ListedTablesPartition(st: State, mapId: Id)
    requires mapId in st.maps
    requires forall t: nat :: t < |TablesOfMap(st.tables, mapId, st.nextId)| ==> TableIsListed(st, mapId, t)
    ensures var snapshot := SnapshotOf(st, mapId);
      && Partition(snapshot)
      && (forall id :: Lists(snapshot, id) ==> id in st.seats && st.seats[id].mapId == mapId)
      && (forall t: nat, i: nat :: InRange(snapshot, t, i) ==>
            var table, seat := snapshot.tables[t], snapshot.tables[t].seats[i];
            && seat.id in st.seats && table.id == st.seats[seat.id].tableId && seat.seatLabel == st.seats[seat.id].seatLabel
            && table.id in st.tables && table.sectionId == st.tables[table.id].sectionId)
  {
    var snapshot := SnapshotOf(st, mapId);
    TablesListed(st.tables, mapId, st.nextId);
    assert |snapshot.tables| == |TablesOfMap(st.tables, mapId, st.nextId)|;
    assert forall t: nat, i: nat :: InRange(snapshot, t, i) ==>
      TableIsListed(st, mapId, t) && snapshot.tables[t].seats[i] in snapshot.tables[t].seats;
    hide SnapshotOf, TablesOfMap;
  }

  lemma SeatTableBelow(st: State, id: Id)
    requires RowsOk(st) && id in st.seats
    ensures id < st.nextId && st.seats[id].tableId in TablesOfMap(st.tables, st.seats[id].mapId, st.nextId)
  {
    TablesListed(st.tables, st.seats[id].mapId, st.nextId);
  }

  lemma DoKeepsRows(st: State, op: Op)
    requires RowsOk(st)
    ensures RowsOk(Do(st, op).0)
  {
  }

  lemma {:induction false} LastIsCount(versions: seq<Version>, mapId: Id)
    requires VersionsOk(versions)
    ensures LastVersion(versions, mapId) == CountVersions(versions, mapId)
    decreases |versions|
  {
    if versions != [] {
      var before := versions[..|versions| - 1];
      assert forall v :: 0 <= v < |before| ==> before[..v] == versions[..v];
      LastIsCount(before, mapId);
    }
  }

  lemma PublishKeepsVersions(st: State, mapId: Id)
    requires RowsOk(st) && VersionsOk(st.versions)
    ensures VersionsOk(Do(st, Publish(mapId)).0.versions)
  {
    if mapId in st.maps {
      PublishPartitionsSeats(st, mapId);
      LastIsCount(st.versions, mapId);
      var versions := Do(st, Publish(mapId)).0.versions;
      assert st.versions[..|st.versions|] == st.versions;
      forall v | 0 <= v < |versions|
        ensures versions[v].versionNumber == 1 + CountVersions(versions[..v], versions[v].mapId)
      {
        assert versions[..v] == st.versions[..v];
      }
    }
  }

  lemma DoKeepsVersions(st: State, op: Op)
    requires RowsOk(st) && VersionsOk(st.versions)
    ensures VersionsOk(Do(st, op).0.versions) && st.versions <= Do(st, op).0.versions
  {
    if op.Publish? { PublishKeepsVersions(st, op.mapId); }
  }

  /** Over any serial run of authoring and publishing: live rows stay consistent, old versions
      never change, and each map's versions are numbered 1, 2, 3, ... and partition their seats. */
  lemma {:induction false} RunPublishesPartitions(ops: seq<Op>)
    ensures RowsOk(Run(EMPTY, ops)) && VersionsOk(Run(EMPTY, ops).versions)
    ensures forall k :: 0 <= k <= |ops| ==> Run(EMPTY, ops[..k]).versions <= Run(EMPTY, ops).versions
    decreases |ops|
  {
    assert ops[..|ops|] == ops;
    if ops != [] {
      var most, op := ops[..|ops| - 1], ops[|ops| - 1];
      RunPublishesPartitions(most);
      DoKeepsRows(Run(EMPTY, most), op);
      DoKeepsVersions(Run(EMPTY, most), op);
      forall k | 0 <= k < |ops| ensures Run(EMPTY, ops[..k]).versions <= Run(EMPTY, ops).versions {
        assert most[..k] == ops[..k];
      }
    }
  }

  // ----- The two seat lookups of the other services -----

  datatype SeatInfo = SeatInfo(seatLabel: string, sectionId: Option<Id>)

  /** table.seats.find(...). */
  function FindSeat(seats: seq<SeatSnapshot>, seatId: Id): Option<SeatSnapshot> {
    if seats == [] then None
    else if seats[0].id == seatId then Some(seats[0])
    else FindSeat(seats[1..], seatId)
  }

  /** The order service's findSeatInSnapshot. */
  function FindSeatInSnapshot(tables: seq<TableSnapshot>, seatId: Id): Option<SeatInfo> {
    if tables == [] then None
    else match FindSeat(tables[0].seats, seatId)
      case Some(seat) => Some(SeatInfo(seat.seatLabel, tables[0].sectionId))
      case None => FindSeatInSnapshot(tables[1..], seatId)
  }

  /** The food-order service's findTableForSeat. */
  function FindTableForSeat(tables: seq<TableSnapshot>, seatId: Id): Option<TableSnapshot> {
    if tables == [] then None
    else if FindSeat(tables[0].seats, seatId).Some? then Some(tables[0])
    else FindTableForSeat(tables[1..], seatId)
  }

  lemma {:induction false} FindSeatFirst(seats: seq<SeatSnapshot>, seatId: Id)
    ensures FindSeat(seats, seatId).Some? <==> exists i :: 0 <= i < |seats| && seats[i].id == seatId
    ensures FindSeat(seats, seatId).Some? ==> FindSeat(seats, seatId).value in seats && FindSeat(seats, seatId).value.id == seatId
  {
    if seats != [] {
      FindSeatFirst(seats[1..], seatId);
      if seats[0].id != seatId && FindSeat(seats[1..], seatId).Some? {
        var i :| 0 <= i < |seats[1..]| && seats[1..][i].id == seatId;
        assert seats[i + 1].id == seatId;
      }
      if i :| 1 <= i < |seats| && seats[i].id == seatId {
        assert seats[1..][i - 1].id == seatId;
      }
    }
  }

  lemma {:induction false} LookupsFirst(tables: seq<TableSnapshot>, seatId: Id)
    returns (t: nat)
    ensures t <= |tables|
    ensures forall u :: 0 <= u < t ==> FindSeat(tables[u].seats, seatId).None?
    ensures t == |tables| ==> FindSeatInSnapshot(tables, seatId).None? && FindTableForSeat(tables, seatId).None?
    ensures t < |tables| ==>
      && FindSeat(tables[t].seats, seatId).Some?
      && FindTableForSeat(tables, seatId) == Some(tables[t])
      && FindSeatInSnapshot(tables, seatId)
         == Some(SeatInfo(FindSeat(tables[t].seats, seatId).value.seatLabel, tables[t].sectionId))
  {
    if tables == [] || FindSeat(tables[0].seats, seatId).Some? {
      t := 0;
    } else {
      var rest := LookupsFirst(tables[1..], seatId);
      t := rest + 1;
      forall u | 0 <= u < t ensures FindSeat(tables[u].seats, seatId).None? {
        if u > 0 { assert tables[u] == tables[1..][u - 1]; }
      }
    }
  }

  /** On a published snapshot both lookups succeed exactly on the listed seats, and they answer
      with the label and section, and with the table, of the seat's one place. */
  lemma LookupsAgreeWithPartition(snapshot: Snapshot, seatId: Id)
    requires Partition(snapshot)
    ensures FindSeatInSnapshot(snapshot.tables, seatId).Some? <==> Lists(snapshot, seatId)
    ensures FindTableForSeat(snapshot.tables, seatId).Some? <==> Lists(snapshot, seatId)
    ensures forall t: nat, i: nat :: At(snapshot, t, i, seatId) ==>
      && FindTableForSeat(snapshot.tables, seatId) == Some(snapshot.tables[t])
      && FindSeatInSnapshot(snapshot.tables, seatId)
         == Some(SeatInfo(snapshot.tables[t].seats[i].seatLabel, snapshot.tables[t].sectionId))
  {
    var first := LookupsFirst(snapshot.tables, seatId);
    forall t: nat | t < |snapshot.tables|
      ensures FindSeat(snapshot.tables[t].seats, seatId).Some? <==> exists i: nat :: At(snapshot, t, i, seatId)
    {
      FindSeatFirst(snapshot.tables[t].seats, seatId);
      if FindSeat(snapshot.tables[t].seats, seatId).Some? {
        var i: nat :| i < |snapshot.tables[t].seats| && snapshot.tables[t].seats[i].id == seatId;
        assert At(snapshot, t, i, seatId);
      }
    }
    if first < |snapshot.tables| {
      FindSeatFirst(snapshot.tables[first].seats, seatId);
      var seat := FindSeat(snapshot.tables[first].seats, seatId).value;
      var i: nat :| i < |snapshot.tables[first].seats| && snapshot.tables[first].seats[i] == seat;
      assert At(snapshot, first, i, seatId);
    }
  }

  /** flatMap of all seat ids, the list the availability endpoint asks about. */
  function SeatIds(tables: seq<TableSnapshot>): seq<Id> {
    if tables == [] then []
    else seq(|tables[0].seats|, i requires 0 <= i < |tables[0].seats| => tables[0].seats[i].id) + SeatIds(tables[1..])
  }

  lemma {:induction false} SeatIdsAreFindable(tables: seq<TableSnapshot>, seatId: Id)
    ensures seatId in SeatIds(tables) <==> FindSeatInSnapshot(tables, seatId).Some?
  {
    if tables != [] {
      SeatIdsAreFindable(tables[1..], seatId);
      var ids := seq(|tables[0].seats|, i requires 0 <= i < |tables[0].seats| => tables[0].seats[i].id);
      FindSeatFirst(tables[0].seats, seatId);
      if FindSeat(tables[0].seats, seatId).Some? {
        var i :| 0 <= i < |tables[0].seats| && tables[0].seats[i].id == seatId;
        assert ids[i] == seatId;
      }
    }
  }
}
