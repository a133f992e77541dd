/** The same service calls split into single Redis and database commands, run by any number of
    callers in any interleaving. Every step is a total function of the machine: a caller whose
    guard does not hold stays where it is, and a caller may vanish between two commands. */
module HoldCommands {
  import opened Common
  import opened Venue

  /** Where a caller stands between two of its commands; `since` is the log's length at its GET. */
  datatype Pc =
    | CreateChecked(key: SeatKey, ttl: nat)                        // no sold row; SET NX is next
    | RenewMatched(key: SeatKey, token: Token, ttl: nat, since: nat)  // GET matched; EXPIRE is next
    | ReleaseMatched(key: SeatKey, token: Token, since: nat)          // GET matched; DEL is next
    | SellChecked(key: SeatKey, orderId: Option<Id>)               // no sold row; INSERT is next
    | SellSaved(key: SeatKey)                                      // row saved; DEL is next
    | Looking(versionId: Id, soldSeen: set<Id>, requester: Token)  // sold rows read; MGET is next
    | ClaimSeen(key: SeatKey, token: Token)                        // create() read HELD_BY_ME; GET is next
    | ClaimMatched(key: SeatKey, token: Token, since: nat)         // GET matched; EXPIRE is next

  /** The commands that took effect, in order (history only). */
  datatype Event =
    | WasSet(key: SeatKey, token: Token, at: int, until: int)
    | WasTouched(key: SeatKey, until: int)
    | WasDeleted(key: SeatKey)
    | RowSaved(key: SeatKey, orderId: Option<Id>)
    | Reported(key: SeatKey, token: Token)
    | Claimed(key: SeatKey, token: Token)

  datatype Machine = Machine(
    holds: Holds, sold: SoldLedger, now: int, callers: map<Id, Pc>,
    seen: set<Token>,  // every token ever drawn by createHold or presented by a caller
    log: seq<Event>)

  const START := Machine(map[], map[], 0, map[], {}, [])

  datatype Step =
    | Pass(now: int)
    | Vanish(who: Id)
    | CreateLookup(who: Id, key: SeatKey, ttl: nat)
    | CreateSet(who: Id, token: Token)
    | RenewGet(who: Id, key: SeatKey, token: Token, ttl: nat)
    | RenewExpire(who: Id)
    | ReleaseGet(who: Id, key: SeatKey, token: Token)
    | ReleaseDel(who: Id)
    | FreeDel(key: SeatKey)
    | SellLookup(who: Id, key: SeatKey, orderId: Option<Id>)
    | SellInsert(who: Id)
    | SellDel(who: Id)
    | LookRows(who: Id, versionId: Id, requester: Token)
    | LookMget(who: Id, seatId: Id)
    | ClaimGet(who: Id)
    | ClaimExpire(who: Id)

  function Leave(m: Machine, who: Id): Machine { m.(callers := m.callers - {who}) }
  function Enter(m: Machine, who: Id, pc: Pc): Machine { m.(callers := m.callers[who := pc]) }

  function Deletes(m: Machine, key: SeatKey): Machine {
    m.(holds := Del(m.holds, key), log := m.log + [WasDeleted(key)])
  }

  function Touches(m: Machine, key: SeatKey, ttl: nat): Machine {
    if Get(m.holds, key, m.now).None? then m
    else m.(holds := Expire(m.holds, key, ttl, m.now), log := m.log + [WasTouched(key, m.now + ttl)])
  }

  /** SET NX with a token that nobody has drawn or presented before (the UUID assumption). */
  function Sets(m: Machine, key: SeatKey, token: Token, ttl: nat): Machine {
    var (holds, ok) := SetNx(m.holds, key, token, ttl, m.now);
    if ok then m.(holds := holds, seen := m.seen + {token}, log := m.log + [WasSet(key, token, m.now, m.now + ttl)])
    else m.(seen := m.seen + {token})
  }

  /** INSERT into sold_seats; a second row for the same seat violates the unique constraint. */
  function Inserts(m: Machine, who: Id, key: SeatKey, orderId: Option<Id>): Machine {
    if key in m.sold then Leave(m, who)
    else Enter(m.(sold := m.sold[key := orderId], log := m.log + [RowSaved(key, orderId)]), who, SellSaved(key))
  }

  function Notes(m: Machine, e: Event): Machine { m.(log := m.log + [e]) }

  /** MGET, joined with the sold rows read before it; the buyer's create() goes on if the seat is theirs. */
  function Reports(m: Machine, who: Id, key: SeatKey, soldSeen: set<Id>, requester: Token): Machine {
    if key.seatId !in soldSeen && Get(m.holds, key, m.now) == Some(requester)
    then Enter(Notes(m, Reported(key, requester)), who, ClaimSeen(key, requester))
    else Leave(m, who)
  }

  function Next(m: Machine, step: Step): Machine {
    match step
    case Pass(now) => if now < m.now then m else m.(now := now)
    case Vanish(who) => Leave(m, who)
    case FreeDel(key) => Deletes(m, key)
    // First commands: the caller arrives.
    case CreateLookup(who, key, ttl) =>
      if who in m.callers || key in m.sold then m else Enter(m, who, CreateChecked(key, ttl))
    case RenewGet(who, key, token, ttl) =>
      var m := m.(seen := m.seen + {token});
      if who in m.callers || Get(m.holds, key, m.now) != Some(token) then m
      else Enter(m, who, RenewMatched(key, token, ttl, |m.log|))
    case ReleaseGet(who, key, token) =>
      var m := m.(seen := m.seen + {token});
      if who in m.callers || Get(m.holds, key, m.now) != Some(token) then m
      else Enter(m, who, ReleaseMatched(key, token, |m.log|))
    case SellLookup(who, key, orderId) =>
      if who in m.callers || key in m.sold then m else Enter(m, who, SellChecked(key, orderId))
    case LookRows(who, versionId, requester) =>
      if who in m.callers then m
      else Enter(m.(seen := m.seen + {requester}), who,
                 Looking(versionId, set k | k in m.sold && k.versionId == versionId :: k.seatId, requester))
    // Later commands: the caller is already inside.
    case _ => if step.who in m.callers then Continue(m, step, m.callers[step.who]) else m
  }

  function Continue(m: Machine, step: Step, pc: Pc): Machine {
    match (step, pc)
    case (CreateSet(who, token), CreateChecked(key, ttl)) =>
      if token in m.seen then m else Leave(Sets(m, key, token, ttl), who)
    case (RenewExpire(who), RenewMatched(key, _, ttl, _)) => Leave(Touches(m, key, ttl), who)
    case (ReleaseDel(who), ReleaseMatched(key, _, _)) => Leave(Deletes(m, key), who)
    case (SellInsert(who), SellChecked(key, orderId)) => Inserts(m, who, key, orderId)
    case (SellDel(who), SellSaved(key)) => Leave(Deletes(m, key), who)
    case (LookMget(who, seatId), Looking(versionId, soldSeen, requester)) =>
      Reports(m, who, SeatKey(versionId, seatId), soldSeen, requester)
    case (ClaimGet(who), ClaimSeen(key, token)) =>
      if Get(m.holds, key, m.now) == Some(token) then Enter(m, who, ClaimMatched(key, token, |m.log|)) else Leave(m, who)
    case (ClaimExpire(who), ClaimMatched(key, token, _)) =>
      Leave(Notes(Touches(m, key, ORDER_HOLD_TTL_SECONDS), Claimed(key, token)), who)
    case _ => m
  }

  function Run(m: Machine, steps: seq<Step>): Machine
    decreases |steps|
  {
    if steps == [] then m else Next(Run(m, steps[..|steps| - 1]), steps[|steps| - 1])
  }

  // ----- What the history says -----

  /** When the key's value would lapse, as the log alone tells it. */
  function Deadline(log: seq<Event>, key: SeatKey): Option<int>
    decreases |log|
  {
    if log == [] then None
    else
      var last := log[|log| - 1];
      if last.key != key then Deadline(log[..|log| - 1], key)
      else if last.WasSet? || last.WasTouched? then Some(last.until)
      else if last.WasDeleted? then None
      else Deadline(log[..|log| - 1], key)
  }

  /** The owner written by the seat's first sold row. */
  function FirstOwner(log: seq<Event>, key: SeatKey): Option<Option<Id>>
    decreases |log|
  {
    if log == [] then None
    else
      var before := FirstOwner(log[..|log| - 1], key);
      var last := log[|log| - 1];
      if before.None? && last.RowSaved? && last.key == key then Some(last.orderId) else before
  }

  /** A SET NX put the token on the seat, with (`sold`) or without a sold row already there. */
  predicate WasPut(log: seq<Event>, key: SeatKey, token: Token, sold: bool)
    decreases |log|
  {
    && log != []
    && var before, last := log[..|log| - 1], log[|log| - 1];
       || WasPut(before, key, token, sold)
       || (last.WasSet? && last.key == key && last.token == token && FirstOwner(before, key).Some? == sold)
  }

  /** What one more entry changes. */
  lemma Snoc(log: seq<Event>, e: Event)
    ensures forall i {:trigger (log + [e])[..i]} :: 0 <= i <= |log| ==> (log + [e])[..i] == log[..i]
    ensures forall key ::
      Deadline(log + [e], key) == (if e.key == key && (e.WasSet? || e.WasTouched?) then Some(e.until)
                                   else if e.key == key && e.WasDeleted? then None
                                   else Deadline(log, key))
    ensures forall key ::
      FirstOwner(log + [e], key) == (if FirstOwner(log, key).None? && e.RowSaved? && e.key == key then Some(e.orderId)
                                     else FirstOwner(log, key))
    ensures forall key, token, sold :: WasPut(log + [e], key, token, sold) <==>
      (WasPut(log, key, token, sold)
       || (e.WasSet? && e.key == key && e.token == token && FirstOwner(log, key).Some? == sold))
  {
    assert (log + [e])[..|log|] == log;
  }

  // ----- The invariant -----

  /** Redis agrees with the log, and every SET NX that took effect found the key missing or lapsed. */
  ghost predicate HoldsMatchLog(m: Machine) {
    && (forall key :: key in m.holds <==> Deadline(m.log, key).Some?)
    && (forall key :: key in m.holds ==> m.holds[key].expiresAt == Deadline(m.log, key).value)
    && (forall i :: 0 <= i < |m.log| && m.log[i].WasSet? ==> FoundFree(m.log, i))
  }

  predicate FoundFree(log: seq<Event>, i: nat)
    requires i < |log| && log[i].WasSet?
  {
    var d := Deadline(log[..i], log[i].key);
    d.None? || d.value <= log[i].at
  }

  /** The ledger is exactly the first row of each seat, and no seat ever gets a second row. */
  ghost predicate RowsMatchLog(m: Machine) {
    && (forall key :: key in m.sold <==> FirstOwner(m.log, key).Some?)
    && (forall key :: key in m.sold ==> m.sold[key] == FirstOwner(m.log, key).value)
    && (forall i ::
          0 <= i < |m.log| && m.log[i].RowSaved? ==> FirstOwner(m.log[..i], m.log[i].key).None?)
  }

  ghost predicate PcSound(m: Machine, pc: Pc) {
    match pc
    case Looking(versionId, soldSeen, requester) =>
      && requester in m.seen
      && forall seatId :: WasPut(m.log, SeatKey(versionId, seatId), requester, true) ==> seatId in soldSeen
    case ClaimSeen(key, token) => WasPut(m.log, key, token, false)
    case ClaimMatched(key, token, _) => WasPut(m.log, key, token, false)
    case _ => true
  }

  ghost predicate TokensSound(m: Machine) {
    && (forall key, token, sold :: WasPut(m.log, key, token, sold) ==> token in m.seen && (sold ==> key in m.sold))
    && (forall key ::
          key in m.holds ==> exists sold :: WasPut(m.log, key, m.holds[key].token, sold))
    && (forall who ::
          who in m.callers ==> PcSound(m, m.callers[who]))
    && (forall i ::
          0 <= i < |m.log| && (m.log[i].Reported? || m.log[i].Claimed?) ==>
            WasPut(m.log[..i], m.log[i].key, m.log[i].token, false))
  }

  ghost predicate Inv(m: Machine) {
    && HoldsMatchLog(m)
    && RowsMatchLog(m)
    && TokensSound(m)
  }

  lemma DeletesKeeps(m: Machine, key: SeatKey)
    requires Inv(m)
    ensures Inv(Deletes(m, key))
  {
    Snoc(m.log, WasDeleted(key));
    assert HoldsMatchLog(Deletes(m, key)) && RowsMatchLog(Deletes(m, key));
    hide HoldsMatchLog, RowsMatchLog, Deadline, FirstOwner;
  }

  lemma TouchesKeepsLog(m: Machine, key: SeatKey, ttl: nat)
    requires HoldsMatchLog(m) && RowsMatchLog(m)
    ensures HoldsMatchLog(Touches(m, key, ttl)) && RowsMatchLog(Touches(m, key, ttl))
  {
    TouchesKeepsRows(m, key, ttl);
    hide RowsMatchLog, FirstOwner, WasPut;
    Snoc(m.log, WasTouched(key, m.now + ttl));
  }

  lemma TouchesKeepsRows(m: Machine, key: SeatKey, ttl: nat)
    requires RowsMatchLog(m)
    ensures RowsMatchLog(Touches(m, key, ttl))
  {
    hide Deadline, WasPut;
    Snoc(m.log, WasTouched(key, m.now + ttl));
  }

  lemma TouchesKeeps(m: Machine, key: SeatKey, ttl: nat)
    requires Inv(m)
    ensures Inv(Touches(m, key, ttl))
    ensures forall k, t, s :: WasPut(Touches(m, key, ttl).log, k, t, s) <==> WasPut(m.log, k, t, s)
  {
    TouchesKeepsLog(m, key, ttl);
    hide HoldsMatchLog, RowsMatchLog, Deadline, FirstOwner;
    Snoc(m.log, WasTouched(key, m.now + ttl));
  }

  lemma SetsKeeps(m: Machine, key: SeatKey, token: Token, ttl: nat)
    requires Inv(m) && token !in m.seen
    ensures Inv(Sets(m, key, token, ttl))
  {
    SetsKeepsHolds(m, key, token, ttl);
    SetsKeepsRows(m, key, token, ttl);
    SetsKeepsTokens(m, key, token, ttl);
  }

  lemma SetsKeepsRows(m: Machine, key: SeatKey, token: Token, ttl: nat)
    requires RowsMatchLog(m)
    ensures RowsMatchLog(Sets(m, key, token, ttl))
  {
    hide Deadline, WasPut;
    Snoc(m.log, WasSet(key, token, m.now, m.now + ttl));
  }

  lemma SetsKeepsHolds(m: Machine, key: SeatKey, token: Token, ttl: nat)
    requires HoldsMatchLog(m)
    ensures HoldsMatchLog(Sets(m, key, token, ttl))
  {
    hide FirstOwner, WasPut;
    Snoc(m.log, WasSet(key, token, m.now, m.now + ttl));
  }

  lemma SetsKeepsTokens(m: Machine, key: SeatKey, token: Token, ttl: nat)
    requires RowsMatchLog(m) && TokensSound(m) && token !in m.seen
    ensures TokensSound(Sets(m, key, token, ttl))
  {
    var e := WasSet(key, token, m.now, m.now + ttl);
    Snoc(m.log, e);
    var after := Sets(m, key, token, ttl);
    if Get(m.holds, key, m.now).None? {
      assert WasPut(after.log, key, token, key in m.sold);
      forall who | who in after.callers ensures PcSound(after, after.callers[who]) {
        assert PcSound(m, m.callers[who]);
      }
      forall k | k in after.holds ensures exists sold :: WasPut(after.log, k, after.holds[k].token, sold) {
        if k != key {
          var sold :| WasPut(m.log, k, m.holds[k].token, sold);
          assert WasPut(after.log, k, after.holds[k].token, sold);
        }
      }
    }
  }

  lemma InsertsKeeps(m: Machine, who: Id, key: SeatKey, orderId: Option<Id>)
    requires Inv(m)
    ensures Inv(Inserts(m, who, key, orderId))
  {
    if key in m.sold {
      LeaveKeeps(m, who);
    } else {
      var saved := m.(sold := m.sold[key := orderId], log := m.log + [RowSaved(key, orderId)]);
      InsertKeepsRows(m, key, orderId, saved);
      InsertKeepsTokens(m, key, orderId, saved);
      CallersKeep(saved, Inserts(m, who, key, orderId));
    }
  }

  lemma InsertKeepsRows(m: Machine, key: SeatKey, orderId: Option<Id>, saved: Machine)
    requires HoldsMatchLog(m) && RowsMatchLog(m) && key !in m.sold
    requires saved == m.(sold := m.sold[key := orderId], log := m.log + [RowSaved(key, orderId)])
    ensures HoldsMatchLog(saved) && RowsMatchLog(saved)
  {
    Snoc(m.log, RowSaved(key, orderId));
  }

  lemma InsertKeepsTokens(m: Machine, key: SeatKey, orderId: Option<Id>, saved: Machine)
    requires TokensSound(m)
    requires saved == m.(sold := m.sold[key := orderId], log := m.log + [RowSaved(key, orderId)])
    ensures TokensSound(saved)
  {
    Snoc(m.log, RowSaved(key, orderId));
    forall w | w in saved.callers ensures PcSound(saved, saved.callers[w]) { assert PcSound(m, m.callers[w]); }
  }

  /** Appending a Reported or Claimed entry for a token that was put on an unsold seat. */
  lemma NotesKeeps(m: Machine, e: Event)
    requires Inv(m) && (e.Reported? || e.Claimed?) && WasPut(m.log, e.key, e.token, false)
    ensures Inv(Notes(m, e))
    ensures WasPut(Notes(m, e).log, e.key, e.token, false)
  {
    Snoc(m.log, e);
    assert HoldsMatchLog(Notes(m, e));
    assert RowsMatchLog(Notes(m, e));
  }

  /** Callers come and go without touching Redis, the ledger or the log. */
  lemma CallersKeep(m: Machine, n: Machine)
    requires Inv(m) && n.log == m.log && n.holds == m.holds && n.sold == m.sold && m.seen <= n.seen
    requires forall who :: who in n.callers ==>
      (who in m.callers && n.callers[who] == m.callers[who]) || PcSound(n, n.callers[who])
    ensures Inv(n)
  {
    forall who | who in n.callers ensures PcSound(n, n.callers[who]) {
      if who in m.callers { assert PcSound(m, m.callers[who]); }
    }
  }

  lemma LeaveKeeps(m: Machine, who: Id)
    requires Inv(m)
    ensures Inv(Leave(m, who))
  {
    CallersKeep(m, Leave(m, who));
  }

  lemma ContinueKeeps(m: Machine, step: Step, pc: Pc)
    requires Inv(m) && PcSound(m, pc)
    ensures Inv(Continue(m, step, pc))
  {
    hide Inv, WasPut, Sets, Touches, Deletes, Inserts, Reports, Get;
    match step
    case CreateSet(who, token) =>
      if pc.CreateChecked? && token !in m.seen {
        SetsKeeps(m, pc.key, token, pc.ttl);
        LeaveKeeps(Sets(m, pc.key, token, pc.ttl), who);
      }
    case RenewExpire(who) =>
      if pc.RenewMatched? {
        TouchesKeeps(m, pc.key, pc.ttl);
        LeaveKeeps(Touches(m, pc.key, pc.ttl), who);
      }
    case ReleaseDel(who) => if pc.ReleaseMatched? { LastDeleteKeeps(m, who, pc.key); }
    case SellInsert(who) => if pc.SellChecked? { InsertsKeeps(m, who, pc.key, pc.orderId); }
    case SellDel(who) => if pc.SellSaved? { LastDeleteKeeps(m, who, pc.key); }
    case _ => LookKeeps(m, step, pc);
  }

  lemma LastDeleteKeeps(m: Machine, who: Id, key: SeatKey)
    requires Inv(m)
    ensures Inv(Leave(Deletes(m, key), who))
  {
    DeletesKeeps(m, key);
    LeaveKeeps(Deletes(m, key), who);
  }

  lemma ReportsKeeps(m: Machine, who: Id, key: SeatKey, soldSeen: set<Id>, requester: Token)
    requires Inv(m) && PcSound(m, Looking(key.versionId, soldSeen, requester))
    ensures Inv(Reports(m, who, key, soldSeen, requester))
  {
    var n := Reports(m, who, key, soldSeen, requester);
    if key.seatId !in soldSeen && Get(m.holds, key, m.now) == Some(requester) {
      assert WasPut(m.log, key, requester, false) || WasPut(m.log, key, requester, true);
      NotesKeeps(m, Reported(key, requester));
      CallersKeep(Notes(m, Reported(key, requester)), n);
    } else {
      CallersKeep(m, n);
    }
  }

  lemma ClaimKeeps(m: Machine, who: Id, key: SeatKey, token: Token, since: nat)
    requires Inv(m) && PcSound(m, ClaimMatched(key, token, since))
    ensures Inv(Leave(Notes(Touches(m, key, ORDER_HOLD_TTL_SECONDS), Claimed(key, token)), who))
  {
    var touched := Touches(m, key, ORDER_HOLD_TTL_SECONDS);
    var noted := Notes(touched, Claimed(key, token));
    TouchesKeeps(m, key, ORDER_HOLD_TTL_SECONDS);
    NotesKeeps(touched, Claimed(key, token));
    LeaveKeeps(noted, who);
  }

  /** The steps of a create() that looks a seat up and then claims it. */
  lemma LookKeeps(m: Machine, step: Step, pc: Pc)
    requires Inv(m) && PcSound(m, pc)
    requires step.LookMget? || step.ClaimGet? || step.ClaimExpire? || Continue(m, step, pc) == m
    ensures Inv(Continue(m, step, pc))
  {
    hide HoldsMatchLog, RowsMatchLog, WasPut, Touches, Notes, Reports, Get;
    match step
    case LookMget(who, seatId) =>
      if pc.Looking? { ReportsKeeps(m, who, SeatKey(pc.versionId, seatId), pc.soldSeen, pc.requester); }
    case ClaimGet(who) => if pc.ClaimSeen? { CallersKeep(m, Continue(m, step, pc)); }
    case ClaimExpire(who) => if pc.ClaimMatched? { ClaimKeeps(m, who, pc.key, pc.token, pc.since); }
    case _ =>
  }

  lemma RowsRead(m: Machine, who: Id, versionId: Id, requester: Token)
    requires Inv(m)
    ensures Inv(Next(m, LookRows(who, versionId, requester)))
  {
    var soldSeen := set k | k in m.sold && k.versionId == versionId :: k.seatId;
    forall seatId | WasPut(m.log, SeatKey(versionId, seatId), requester, true) ensures seatId in soldSeen {
      assert SeatKey(versionId, seatId) in m.sold;
    }
    CallersKeep(m, Next(m, LookRows(who, versionId, requester)));
  }

  lemma NextKeeps(m: Machine, step: Step)
    requires Inv(m)
    ensures Inv(Next(m, step))
  {
    hide HoldsMatchLog, RowsMatchLog, WasPut, Continue, Deletes, Get;
    match step
    case FreeDel(key) => DeletesKeeps(m, key);
    case LookRows(who, versionId, requester) => RowsRead(m, who, versionId, requester);
    case Pass(_) => CallersKeep(m, Next(m, step));
    case Vanish(who) => LeaveKeeps(m, who);
    case CreateLookup(_, _, _) => CallersKeep(m, Next(m, step));
    case RenewGet(_, _, _, _) => CallersKeep(m, Next(m, step));
    case ReleaseGet(_, _, _) => CallersKeep(m, Next(m, step));
    case SellLookup(_, _, _) => CallersKeep(m, Next(m, step));
    case _ => if step.who in m.callers { ContinueKeeps(m, step, m.callers[step.who]); }
  }

  lemma {:induction false} RunKeeps(steps: seq<Step>)
    ensures Inv(Run(START, steps))
    decreases |steps|
  {
    if steps != [] {
      RunKeeps(steps[..|steps| - 1]);
      NextKeeps(Run(START, steps[..|steps| - 1]), steps[|steps| - 1]);
    }
  }

  // ----- Main results -----

  predicate Writes(e: Event, key: SeatKey) {
    e.key == key && (e.WasSet? || e.WasTouched?)
  }

  predicate DeletedWithin(log: seq<Event>, key: SeatKey, i: nat, j: nat)
    requires j <= |log|
  {
    exists k :: i <= k < j && log[k] == WasDeleted(key)
  }

  /** Entry k is the key's last write before j. */
  predicate LastWrite(log: seq<Event>, key: SeatKey, k: nat, j: nat)
    requires j <= |log|
  {
    k < j && Writes(log[k], key) && forall l :: k < l < j ==> !Writes(log[l], key)
  }

  /** After a write, the log's deadline is explained by a deletion or by a last write. */
  lemma {:induction false} DeadlineExplained(log: seq<Event>, key: SeatKey, i: nat, j: nat)
    requires i < j <= |log| && Writes(log[i], key)
    ensures DeletedWithin(log, key, i, j) ||
      exists k :: i <= k && LastWrite(log, key, k, j) && Deadline(log[..j], key) == Some(log[k].until)
    decreases j
  {
    assert log[..j][..j - 1] == log[..j - 1];
    if Writes(log[j - 1], key) {
      assert LastWrite(log, key, j - 1, j);
    } else {
      DeadlineExplained(log, key, i, j - 1);
      if DeletedWithin(log, key, i, j - 1) {
      } else {
        var k :| i <= k && LastWrite(log, key, k, j - 1) && Deadline(log[..j - 1], key) == Some(log[k].until);
        if log[j - 1] == WasDeleted(key) {
          assert DeletedWithin(log, key, i, j);
        } else {
          assert LastWrite(log, key, k, j);
        }
      }
    }
  }

  /** In every run, two successful SET NX on one seat are separated by a DEL or by a lapse:
      the seat's last write in between had run out by the time of the second SET. */
  lemma SetsAreSeparated(steps: seq<Step>, i: nat, j: nat)
    requires var log := Run(START, steps).log;
      i < j < |log| && log[i].WasSet? && log[j].WasSet? && log[i].key == log[j].key
    ensures var log := Run(START, steps).log;
      || DeletedWithin(log, log[j].key, i, j)
      || exists k :: i <= k && LastWrite(log, log[j].key, k, j) && log[k].until <= log[j].at
  {
    RunKeeps(steps);
    var log := Run(START, steps).log;
    assert FoundFree(log, j);
    DeadlineExplained(log, log[j].key, i, j);
  }

  /** In every run, racing markSold calls leave one row per seat, with the first owner for ever. */
  lemma FirstSaleWins(steps: seq<Step>, i: nat)
    requires var log := Run(START, steps).log; i < |log| && log[i].RowSaved?
    ensures var m := Run(START, steps);
      && m.log[i].key in m.sold && m.sold[m.log[i].key] == m.log[i].orderId
      && forall j :: 0 <= j < |m.log| && m.log[j].RowSaved? && m.log[j].key == m.log[i].key ==> j == i
  {
    RunKeeps(steps);
    var m := Run(START, steps);
    var key := m.log[i].key;
    OwnerStays(m.log, i, |m.log|);
    assert m.log[..|m.log|] == m.log;
    forall j | 0 <= j < |m.log| && m.log[j].RowSaved? && m.log[j].key == key ensures j == i {
      if j < i {
        OwnerStays(m.log, j, i);
      } else if i < j {
        OwnerStays(m.log, i, j);
      }
    }
  }

  lemma {:induction false} OwnerStays(log: seq<Event>, i: nat, j: nat)
    requires i < j <= |log| && log[i].RowSaved? && FirstOwner(log[..i], log[i].key).None?
    ensures FirstOwner(log[..j], log[i].key) == Some(log[i].orderId)
    decreases j
  {
    assert log[..j][..j - 1] == log[..j - 1];
    if i < j - 1 {
      OwnerStays(log, i, j - 1);
    }
  }

  lemma {:induction false} PutMeans(log: seq<Event>, key: SeatKey, token: Token)
    requires WasPut(log, key, token, false)
    ensures exists i ::
      && 0 <= i < |log| && log[i].WasSet? && log[i].key == key && log[i].token == token
      && forall j :: 0 <= j < i ==> !(log[j].RowSaved? && log[j].key == key)
    decreases |log|
  {
    var before, last := log[..|log| - 1], log[|log| - 1];
    if WasPut(before, key, token, false) {
      PutMeans(before, key, token);
    } else {
      forall j | 0 <= j < |before| ensures !(log[j].RowSaved? && log[j].key == key) {
        NoOwnerNoRow(before, key, j);
      }
    }
  }

  lemma {:induction false} NoOwnerNoRow(log: seq<Event>, key: SeatKey, j: nat)
    requires j < |log| && FirstOwner(log, key).None?
    ensures !(log[j].RowSaved? && log[j].key == key)
    decreases |log|
  {
    if j < |log| - 1 { NoOwnerNoRow(log[..|log| - 1], key, j); }
  }

  /** createHold checks the ledger and then sets the key, so a token can land on a seat sold in
      between. In every run, such a token is never reported HELD_BY_ME and never claims the seat
      for an order: a reported or claimed token was set before any sold row of that seat. */
  lemma GapTokensNeverClaim(steps: seq<Step>, i: nat)
    requires var log := Run(START, steps).log; i < |log| && (log[i].Reported? || log[i].Claimed?)
    ensures var log := Run(START, steps).log;
      exists s ::
        && 0 <= s < i && log[s].WasSet? && log[s].key == log[i].key && log[s].token == log[i].token
        && forall j :: 0 <= j < s ==> !(log[j].RowSaved? && log[j].key == log[i].key)
  {
    RunKeeps(steps);
    var log := Run(START, steps).log;
    PutMeans(log[..i], log[i].key, log[i].token);
    var s :| && 0 <= s < i && log[..i][s].WasSet? && log[..i][s].key == log[i].key && log[..i][s].token == log[i].token
             && forall j :: 0 <= j < s ==> !(log[..i][j].RowSaved? && log[..i][j].key == log[i].key);
    assert forall j :: 0 <= j < s ==> log[..i][j] == log[j];
  }

  function Stored(m: Machine): VenueState { VenueState(m.holds, m.sold) }

  /** Commands of one caller with nothing in between amount to the call-level functions. */
  lemma UninterruptedCallsAreAtomic(m: Machine, who: Id, key: SeatKey, token: Token, ttl: nat, orderId: Option<Id>)
    requires who !in m.callers && token !in m.seen
    ensures Stored(Next(Next(m, CreateLookup(who, key, ttl)), CreateSet(who, token)))
         == CreateHold(Stored(m), key, ttl, token, m.now).0
    ensures Stored(Next(Next(m, RenewGet(who, key, token, ttl)), RenewExpire(who)))
         == RenewHold(Stored(m), key, token, ttl, m.now).0
    ensures Stored(Next(Next(m, ReleaseGet(who, key, token)), ReleaseDel(who)))
         == ReleaseHold(Stored(m), key, token, m.now).0
    ensures Stored(Next(Next(Next(m, SellLookup(who, key, orderId)), SellInsert(who)), SellDel(who)))
         == MarkSold(Stored(m), key, orderId)
  {
    CreateAlone(m, who, key, token, ttl);
    RenewAlone(m, who, key, token, ttl);
    ReleaseAlone(m, who, key, token);
    SellAlone(m, who, key, orderId);
  }

  lemma CreateAlone(m: Machine, who: Id, key: SeatKey, token: Token, ttl: nat)
    requires who !in m.callers && token !in m.seen
    ensures Stored(Next(Next(m, CreateLookup(who, key, ttl)), CreateSet(who, token)))
         == CreateHold(Stored(m), key, ttl, token, m.now).0
  {
    var m1 := Next(m, CreateLookup(who, key, ttl));
    if key !in m.sold {
      assert m1.callers[who] == CreateChecked(key, ttl);
      assert Next(m1, CreateSet(who, token)) == Continue(m1, CreateSet(who, token), m1.callers[who]);
    }
  }

  lemma RenewAlone(m: Machine, who: Id, key: SeatKey, token: Token, ttl: nat)
    requires who !in m.callers
    ensures Stored(Next(Next(m, RenewGet(who, key, token, ttl)), RenewExpire(who)))
         == RenewHold(Stored(m), key, token, ttl, m.now).0
  {
    var m1 := Next(m, RenewGet(who, key, token, ttl));
    if Get(m.holds, key, m.now) == Some(token) {
      assert m1.callers[who] == RenewMatched(key, token, ttl, |m.log|);
      assert Next(m1, RenewExpire(who)) == Continue(m1, RenewExpire(who), m1.callers[who]);
    }
  }

  lemma ReleaseAlone(m: Machine, who: Id, key: SeatKey, token: Token)
    requires who !in m.callers
    ensures Stored(Next(Next(m, ReleaseGet(who, key, token)), ReleaseDel(who)))
         == ReleaseHold(Stored(m), key, token, m.now).0
  {
    var m1 := Next(m, ReleaseGet(who, key, token));
    if Get(m.holds, key, m.now) == Some(token) {
      assert m1.callers[who] == ReleaseMatched(key, token, |m.log|);
      assert Next(m1, ReleaseDel(who)) == Continue(m1, ReleaseDel(who), m1.callers[who]);
    }
  }

  lemma SellAlone(m: Machine, who: Id, key: SeatKey, orderId: Option<Id>)
    requires who !in m.callers
    ensures Stored(Next(Next(Next(m, SellLookup(who, key, orderId)), SellInsert(who)), SellDel(who)))
         == MarkSold(Stored(m), key, orderId)
  {
    var m1 := Next(m, SellLookup(who, key, orderId));
    if key !in m.sold {
      assert m1.callers[who] == SellChecked(key, orderId);
      var m2 := Next(m1, SellInsert(who));
      assert m2 == Continue(m1, SellInsert(who), m1.callers[who]);
      assert m2.callers[who] == SellSaved(key);
      assert Next(m2, SellDel(who)) == Continue(m2, SellDel(who), m2.callers[who]);
    }
  }
}
