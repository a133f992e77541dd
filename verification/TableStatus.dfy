/** aggregateTableStatuses of the shared library: a table's booking status from its seats'. */
module TableStatus {
  import opened Common
  import opened Venue
  import opened SeatMaps

  datatype BookingStatus = AVAILABLE_TABLE | HELD_TABLE | BOOKED_TABLE

  /** The table has a seat that reads one of these statuses; unlisted seats read undefined. */
  ghost predicate Reads(seats: seq<SeatSnapshot>, availability: map<Id, SeatStatus>, statuses: set<SeatStatus>) {
    exists i :: 0 <= i < |seats| && seats[i].id in availability && availability[seats[i].id] in statuses
  }

  ghost predicate Describes(status: BookingStatus, seats: seq<SeatSnapshot>, availability: map<Id, SeatStatus>) {
    && (status.BOOKED_TABLE? <==> Reads(seats, availability, {SOLD}))
    && (status.HELD_TABLE? <==> !Reads(seats, availability, {SOLD}) && Reads(seats, availability, {HELD, HELD_BY_ME}))
  }

  /** The inner loop, with its early exit at the first sold seat. */
  method StatusOfTable(seats: seq<SeatSnapshot>, availability: map<Id, SeatStatus>) returns (status: BookingStatus)
    ensures Describes(status, seats, availability)
  {
    status := AVAILABLE_TABLE;
    for i := 0 to |seats|
      invariant !status.BOOKED_TABLE?
      invariant forall j :: 0 <= j < i && seats[j].id in availability ==> availability[seats[j].id] != SOLD
      invariant status.HELD_TABLE? <==>
        exists j :: 0 <= j < i && seats[j].id in availability && availability[seats[j].id] in {HELD, HELD_BY_ME}
    {
      if seats[i].id in availability {
        var seatStatus := availability[seats[i].id];
        if seatStatus == SOLD {
          assert Reads(seats, availability, {SOLD});
          status := BOOKED_TABLE;
          break;
        }
        if seatStatus == HELD || seatStatus == HELD_BY_ME {
          status := HELD_TABLE;
        }
      }
    }
  }

  /** result[table.id] = status, table by table. */
  method AggregateTableStatuses(tables: seq<TableSnapshot>, availability: map<Id, SeatStatus>)
    returns (result: map<Id, BookingStatus>)
    requires forall t, u :: 0 <= t < u < |tables| ==> tables[t].id != tables[u].id
    ensures forall id :: id in result <==> exists t :: 0 <= t < |tables| && tables[t].id == id
    ensures forall t :: 0 <= t < |tables| ==>
      tables[t].id in result && Describes(result[tables[t].id], tables[t].seats, availability)
  {
    result := map[];
    for t := 0 to |tables|
      invariant forall id :: id in result <==> exists u :: 0 <= u < t && tables[u].id == id
      invariant forall u :: 0 <= u < t ==>
        tables[u].id in result && Describes(result[tables[u].id], tables[u].seats, availability)
    {
      var status := StatusOfTable(tables[t].seats, availability);
      result := result[tables[t].id := status];
    }
  }

  function Rank(status: BookingStatus): nat {
    match status case AVAILABLE_TABLE => 0 case HELD_TABLE => 1 case BOOKED_TABLE => 2
  }

  function SeatRank(status: SeatStatus): nat {
    match status case AVAILABLE => 0 case HELD => 1 case HELD_BY_ME => 1 case SOLD => 2
  }

  ghost predicate SameSeats(seats: seq<SeatSnapshot>, others: seq<SeatSnapshot>) {
    SeatIdSet(seats) == SeatIdSet(others)
  }

  function SeatIdSet(seats: seq<SeatSnapshot>): set<Id> {
    set s | s in seats :: s.id
  }

  lemma ReadsSeatSet(seats: seq<SeatSnapshot>, others: seq<SeatSnapshot>, availability: map<Id, SeatStatus>, statuses: set<SeatStatus>)
    requires SameSeats(seats, others) && Reads(seats, availability, statuses)
    ensures Reads(others, availability, statuses)
  {
    var i :| 0 <= i < |seats| && seats[i].id in availability && availability[seats[i].id] in statuses;
    assert seats[i].id in SeatIdSet(seats);
    var s :| s in others && s.id == seats[i].id;
    var j :| 0 <= j < |others| && others[j] == s;
    assert others[j].id in availability && availability[others[j].id] in statuses;
  }

  /** The status depends on the set of seats, not on their order or repetition. */
  lemma StatusIgnoresOrder(seats: seq<SeatSnapshot>, others: seq<SeatSnapshot>, availability: map<Id, SeatStatus>, a: BookingStatus, b: BookingStatus)
    requires SameSeats(seats, others) && Describes(a, seats, availability) && Describes(b, others, availability)
    ensures a == b
  {
    forall statuses: set<SeatStatus> ensures Reads(seats, availability, statuses) <==> Reads(others, availability, statuses) {
      if Reads(seats, availability, statuses) { ReadsSeatSet(seats, others, availability, statuses); }
      if Reads(others, availability, statuses) { ReadsSeatSet(others, seats, availability, statuses); }
    }
  }

  /** Raising seat statuses never lowers the table's. */
  lemma StatusIsMonotone(seats: seq<SeatSnapshot>, before: map<Id, SeatStatus>, after: map<Id, SeatStatus>, a: BookingStatus, b: BookingStatus)
    requires Describes(a, seats, before) && Describes(b, seats, after)
    requires forall id :: id in before ==> id in after && SeatRank(before[id]) <= SeatRank(after[id])
    ensures Rank(a) <= Rank(b)
  {
    if a.BOOKED_TABLE? {
      var i :| 0 <= i < |seats| && seats[i].id in before && before[seats[i].id] in {SOLD};
      assert SeatRank(after[seats[i].id]) == 2;
      assert after[seats[i].id] == SOLD;
      assert Reads(seats, after, {SOLD});
    } else if a.HELD_TABLE? {
      var i :| 0 <= i < |seats| && seats[i].id in before && before[seats[i].id] in {HELD, HELD_BY_ME};
      assert SeatRank(after[seats[i].id]) >= 1;
      if after[seats[i].id] == SOLD { assert Reads(seats, after, {SOLD}); }
      else { assert Reads(seats, after, {HELD, HELD_BY_ME}); }
    }
  }

  /** The answer of the availability endpoint for one version, at one time. */
  ghost predicate Answers(availability: map<Id, SeatStatus>, st: VenueState, versionId: Id, seatIds: seq<Id>, who: Option<Token>, now: int) {
    && (forall id :: id in availability <==> id in seatIds)
    && (forall id :: id in availability ==> availability[id] == StatusOf(st, SeatKey(versionId, id), who, now))
  }

  /** With the sold ledger, a BOOKED table stays BOOKED in every later state and for every
      reader, and it is BOOKED exactly when one of its seats has a sold row in that version. */
  lemma BookedStaysBooked(
    st: VenueState, trace: seq<Timed>, versionId: Id, tables: seq<TableSnapshot>, t: nat,
    early: map<Id, SeatStatus>, late: map<Id, SeatStatus>, who: Option<Token>, other: Option<Token>, now: int, later: int,
    a: BookingStatus, b: BookingStatus)
    requires Consistent(st) && t < |tables|
    requires Answers(early, st, versionId, SeatIds(tables), who, now)
    requires Answers(late, Play(st, trace), versionId, SeatIds(tables), other, later)
    requires Describes(a, tables[t].seats, early) && Describes(b, tables[t].seats, late)
    ensures a.BOOKED_TABLE? ==> b.BOOKED_TABLE?
    ensures a.BOOKED_TABLE? <==> exists i :: 0 <= i < |tables[t].seats| && SeatKey(versionId, tables[t].seats[i].id) in st.sold
  {
    LedgerIsPermanent(st, trace);
    forall i | 0 <= i < |tables[t].seats| ensures tables[t].seats[i].id in SeatIds(tables) { SeatIdListed(tables, t, i); }
    if a.BOOKED_TABLE? {
      var i :| 0 <= i < |tables[t].seats| && tables[t].seats[i].id in early && early[tables[t].seats[i].id] in {SOLD};
      assert SeatKey(versionId, tables[t].seats[i].id) in st.sold;
      assert late[tables[t].seats[i].id] == SOLD;
      assert Reads(tables[t].seats, late, {SOLD});
    }
    if i :| 0 <= i < |tables[t].seats| && SeatKey(versionId, tables[t].seats[i].id) in st.sold {
      assert early[tables[t].seats[i].id] == SOLD;
      assert Reads(tables[t].seats, early, {SOLD});
    }
  }

  lemma {:induction false} SeatIdListed(tables: seq<TableSnapshot>, t: nat, i: nat)
    requires t < |tables| && i < |tables[t].seats|
    ensures tables[t].seats[i].id in SeatIds(tables)
  {
    if t > 0 {
      SeatIdListed(tables[1..], t - 1, i);
    } else {
      var ids := seq(|tables[0].seats|, k requires 0 <= k < |tables[0].seats| => tables[0].seats[k].id);
      assert ids[i] == tables[0].seats[i].id;
    }
  }
}
