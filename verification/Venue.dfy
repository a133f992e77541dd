/** The venue service's seat holds (Redis keys with a time to live) and its sold ledger.

    Each HoldsService call is one step here; HoldCommands.dfy splits the calls into
    single Redis and database commands. Times are whole instants of one clock. */
module Venue {
  import opened Common

  const HOLD_TTL_SECONDS := 300
  const ORDER_HOLD_TTL_SECONDS := 1800

  /** A holder token (a random UUID in the service). */
  type Token = nat

  datatype SeatKey = SeatKey(versionId: Id, seatId: Id)
  datatype Hold = Hold(token: Token, expiresAt: int)
  type Holds = map<SeatKey, Hold>
  /** One row per (version, seat): the map's key is the table's unique constraint. */
  type SoldLedger = map<SeatKey, Option<Id>>

  datatype SeatStatus = AVAILABLE | HELD | HELD_BY_ME | SOLD
  datatype HoldError = AlreadySold | HeldByAnother | HoldExpired | TokenMismatch
  datatype HoldResult = HoldResult(seatId: Id, holderToken: Token, expiresAt: int)

  datatype VenueState = VenueState(holds: Holds, sold: SoldLedger)

  const EMPTY := VenueState(map[], map[])

  // ----- The Redis commands the service issues -----

  /** GET: a key whose time to live has run out answers nil. */
  function Get(holds: Holds, key: SeatKey, now: int): Option<Token> {
    if key in holds && now < holds[key].expiresAt then Some(holds[key].token) else None
  }

  /** SET key token EX ttl NX: only over a missing or lapsed key. */
  function SetNx(holds: Holds, key: SeatKey, token: Token, ttl: nat, now: int): (Holds, bool) {
    if Get(holds, key, now).None? then (holds[key := Hold(token, now + ttl)], true) else (holds, false)
  }

  /** EXPIRE: restarts the time to live of a live key, whoever owns it. */
  function Expire(holds: Holds, key: SeatKey, ttl: nat, now: int): Holds {
    if Get(holds, key, now).Some? then holds[key := holds[key].(expiresAt := now + ttl)] else holds
  }

  /** DEL. */
  function Del(holds: Holds, key: SeatKey): Holds {
    holds - {key}
  }

  // ----- The service calls -----

  function CreateHold(st: VenueState, key: SeatKey, ttl: nat, token: Token, now: int)
    : (VenueState, Result<HoldResult, HoldError>)
  {
    if key in st.sold then (st, Err(AlreadySold))
    else
      var (holds, ok) := SetNx(st.holds, key, token, ttl, now);
      if ok then (st.(holds := holds), Ok(HoldResult(key.seatId, token, now + ttl)))
      else (st, Err(HeldByAnother))
  }

  function RenewHold(st: VenueState, key: SeatKey, token: Token, ttl: nat, now: int)
    : (VenueState, Result<HoldResult, HoldError>)
  {
    match Get(st.holds, key, now)
    case None => (st, Err(HoldExpired))
    case Some(current) =>
      if current != token then (st, Err(TokenMismatch))
      else (st.(holds := Expire(st.holds, key, ttl, now)), Ok(HoldResult(key.seatId, token, now + ttl)))
  }

  function ReleaseHold(st: VenueState, key: SeatKey, token: Token, now: int): (VenueState, Result<(), HoldError>) {
    match Get(st.holds, key, now)
    case None => (st, Ok(()))
    case Some(current) =>
      if current != token then (st, Err(TokenMismatch)) else (st.(holds := Del(st.holds, key)), Ok(()))
  }

  function ReserveForOrder(st: VenueState, key: SeatKey, token: Token, now: int)
    : (VenueState, Result<HoldResult, HoldError>)
  {
    RenewHold(st, key, token, ORDER_HOLD_TTL_SECONDS, now)
  }

  function ReleaseForOrder(st: VenueState, key: SeatKey): VenueState {
    st.(holds := Del(st.holds, key))
  }

  function MarkSold(st: VenueState, key: SeatKey, orderId: Option<Id>): VenueState {
    if key in st.sold then st else VenueState(Del(st.holds, key), st.sold[key := orderId])
  }

  /** What getAvailability reports for one seat. */
  function StatusOf(st: VenueState, key: SeatKey, requester: Option<Token>, now: int): SeatStatus {
    if key in st.sold then SOLD
    else match Get(st.holds, key, now)
      case None => AVAILABLE
      case Some(holder) => if requester == Some(holder) then HELD_BY_ME else HELD
  }

  // ----- Runs of calls -----

  datatype Call =
    | Create(key: SeatKey, ttl: nat, token: Token)
    | Renew(key: SeatKey, token: Token, ttl: nat)
    | Release(key: SeatKey, token: Token)
    | Reserve(key: SeatKey, token: Token)
    | FreeForOrder(key: SeatKey)
    | Sell(key: SeatKey, orderId: Option<Id>)

  datatype Timed = Timed(call: Call, at: int)

  function After(st: VenueState, call: Call, at: int): VenueState {
    match call
    case Create(key, ttl, token) => CreateHold(st, key, ttl, token, at).0
    case Renew(key, token, ttl) => RenewHold(st, key, token, ttl, at).0
    case Release(key, token) => ReleaseHold(st, key, token, at).0
    case Reserve(key, token) => ReserveForOrder(st, key, token, at).0
    case FreeForOrder(key) => ReleaseForOrder(st, key)
    case Sell(key, orderId) => MarkSold(st, key, orderId)
  }

  function Play(st: VenueState, trace: seq<Timed>): VenueState
    decreases |trace|
  {
    if trace == [] then st
    else After(Play(st, trace[..|trace| - 1]), trace[|trace| - 1].call, trace[|trace| - 1].at)
  }

  /** markSold deletes the hold and createHold refuses a sold seat, so the two never coexist. */
  ghost predicate Consistent(st: VenueState) {
    forall key :: key in st.sold ==> key !in st.holds
  }

  /** Sold rows keep their owner for ever, and no call puts a hold on a sold seat. */
  lemma {:induction false} LedgerIsPermanent(st: VenueState, trace: seq<Timed>)
    requires Consistent(st)
    ensures Consistent(Play(st, trace))
    ensures forall key :: key in st.sold ==> key in Play(st, trace).sold && Play(st, trace).sold[key] == st.sold[key]
    ensures forall key, who, now :: key in st.sold ==> StatusOf(Play(st, trace), key, who, now) == SOLD
    decreases |trace|
  {
    if trace != [] {
      LedgerIsPermanent(st, trace[..|trace| - 1]);
    }
  }

  /** A hold's round trip: the seat that createHold took reads HELD_BY_ME to its token and HELD to all
      others, refuses their renewals and releases without any effect, and is free again, the state as
      it would be had the hold never been, once its own token releases it. */
  lemma HoldRoundTrip(st: VenueState, key: SeatKey, ttl: nat, token: Token, now: int, other: Token)
    requires ttl > 0 && key !in st.holds && other != token && CreateHold(st, key, ttl, token, now).1.Ok?
    ensures var held := CreateHold(st, key, ttl, token, now).0;
      && StatusOf(held, key, Some(token), now) == HELD_BY_ME && StatusOf(held, key, Some(other), now) == HELD
      && RenewHold(held, key, other, ttl, now) == (held, Err(TokenMismatch))
      && ReleaseHold(held, key, other, now) == (held, Err(TokenMismatch))
      && ReleaseHold(held, key, token, now) == (st, Ok(()))
      && CreateHold(held, key, ttl, other, now) == (held, Err(HeldByAnother))
  {
    assert st.holds[key := Hold(token, now + ttl)] - {key} == st.holds;
  }

  /** Renewing restarts exactly the owner's own clock: the hold is live until the new deadline and not
      a moment longer, and no other seat is touched. */
  lemma RenewalRestartsTheClock(st: VenueState, key: SeatKey, token: Token, ttl: nat, now: int, later: int)
    requires RenewHold(st, key, token, ttl, now).1.Ok? && now <= later
    ensures var renewed := RenewHold(st, key, token, ttl, now).0;
      && (Get(renewed.holds, key, later) == Some(token) <==> later < now + ttl)
      && renewed.sold == st.sold && renewed.holds.Keys == st.holds.Keys
      && forall k :: k in st.holds && k != key ==> renewed.holds[k] == st.holds[k]
  {
    assert key in st.holds;
  }

  /** The calls that may end a claim on (key, token) early. A later Reserve by the token may not. */
  predicate Breaks(call: Call, key: SeatKey, token: Token) {
    call.key == key && (call.FreeForOrder? || call.Sell? || ((call.Renew? || call.Release?) && call.token == token))
  }

  predicate TimesFrom(trace: seq<Timed>, from: int, until: int) {
    && (forall i :: 0 <= i < |trace| ==> from <= trace[i].at <= until)
    && (forall i, j :: 0 <= i < j < |trace| ==> trace[i].at <= trace[j].at)
  }

  /** The timed claim of one seat: once reserveForOrder has answered at `at`, every
      createHold is refused and the token reads HELD_BY_ME until `at` + the order TTL. */
  lemma {:induction false} ClaimOutlivesTraffic(st: VenueState, key: SeatKey, token: Token, at: int, trace: seq<Timed>, now: int)
    requires Consistent(st) && ReserveForOrder(st, key, token, at).1.Ok?
    requires at <= now < at + ORDER_HOLD_TTL_SECONDS && TimesFrom(trace, at, now)
    requires forall i :: 0 <= i < |trace| ==> !Breaks(trace[i].call, key, token)
    ensures var after := Play(After(st, Reserve(key, token), at), trace);
            && key in after.holds && after.holds[key].token == token
            && at + ORDER_HOLD_TTL_SECONDS <= after.holds[key].expiresAt
            && StatusOf(after, key, Some(token), now) == HELD_BY_ME
            && forall ttl, other :: CreateHold(after, key, ttl, other, now) == (after, Err(HeldByAnother))
    decreases |trace|
  {
    var start := After(st, Reserve(key, token), at);
    if trace != [] {
      var most, last := trace[..|trace| - 1], trace[|trace| - 1];
      ClaimOutlivesTraffic(st, key, token, at, most, now);
      LedgerIsPermanent(start, most);
      assert !Breaks(last.call, key, token);
      ClaimOutlivesCall(Play(start, most), last.call, last.at, key, token, at + ORDER_HOLD_TTL_SECONDS);
      hide After;
    }
    LedgerIsPermanent(start, trace);
  }

  lemma ClaimOutlivesCall(st: VenueState, call: Call, at: int, key: SeatKey, token: Token, until: int)
    requires key in st.holds && st.holds[key].token == token && until <= st.holds[key].expiresAt
    requires at < until <= at + ORDER_HOLD_TTL_SECONDS && !Breaks(call, key, token)
    ensures var after := After(st, call, at);
      key in after.holds && after.holds[key].token == token && until <= after.holds[key].expiresAt
  {
  }

  lemma {:induction false} PlaySplit(st: VenueState, trace: seq<Timed>, i: nat)
    requires i <= |trace|
    ensures Play(st, trace) == Play(Play(st, trace[..i]), trace[i..])
    decreases |trace|
  {
    if i < |trace| {
      var most := trace[..|trace| - 1];
      PlaySplit(st, most, i);
      assert most[..i] == trace[..i] && most[i..] == trace[i..][..|trace| - 1 - i];
    } else {
      assert trace[..i] == trace;
    }
  }

  /** An order's seat, reserved by entry `index` of a run. */
  datatype Claim = Claim(key: SeatKey, token: Token, index: nat)

  /** Entry `c.index` of the run reserved the seat, nothing after it may end the claim, and `now` is in time. */
  ghost predicate StillClaims(trace: seq<Timed>, c: Claim, now: int) {
    && c.index < |trace| && trace[c.index].call == Reserve(c.key, c.token)
    && ReserveForOrder(Play(EMPTY, trace[..c.index]), c.key, c.token, trace[c.index].at).1.Ok?
    && now < trace[c.index].at + ORDER_HOLD_TTL_SECONDS
    && forall i :: c.index < i < |trace| ==> !Breaks(trace[i].call, c.key, c.token)
  }

  lemma PlayAround(trace: seq<Timed>, i: nat)
    requires i < |trace|
    ensures Play(EMPTY, trace) == Play(After(Play(EMPTY, trace[..i]), trace[i].call, trace[i].at), trace[i + 1..])
  {
    PlaySplit(EMPTY, trace, i + 1);
    assert trace[..i + 1][..i] == trace[..i];
  }

  lemma TrafficAfter(trace: seq<Timed>, c: Claim, now: int)
    requires StillClaims(trace, c, now)
    requires forall i, j :: 0 <= i < j < |trace| ==> trace[i].at <= trace[j].at
    requires forall i :: 0 <= i < |trace| ==> trace[i].at <= now
    ensures var rest := trace[c.index + 1..];
      && TimesFrom(rest, trace[c.index].at, now)
      && forall i :: 0 <= i < |rest| ==> !Breaks(rest[i].call, c.key, c.token)
  {
    hide Breaks, Play;
  }

  lemma SeatClaimOutlivesTraffic(trace: seq<Timed>, c: Claim, now: int)
    requires StillClaims(trace, c, now)
    requires forall i, j :: 0 <= i < j < |trace| ==> trace[i].at <= trace[j].at
    requires forall i :: 0 <= i < |trace| ==> trace[i].at <= now
    ensures StatusOf(Play(EMPTY, trace), c.key, Some(c.token), now) == HELD_BY_ME
    ensures forall ttl, other :: CreateHold(Play(EMPTY, trace), c.key, ttl, other, now).1 == Err(HeldByAnother)
  {
    var before, rest := trace[..c.index], trace[c.index + 1..];
    PlayAround(trace, c.index);
    TrafficAfter(trace, c, now);
    LedgerIsPermanent(EMPTY, before);
    hide Play, TimesFrom, Breaks, After, StatusOf, CreateHold;
    ClaimOutlivesTraffic(Play(EMPTY, before), c.key, c.token, trace[c.index].at, rest, now);
  }

  /** The timed claim of a whole order: its seats were reserved at their own times T1..Tn, in
      any interleaving with other traffic; each holds out until its own Ti plus the order TTL. */
  lemma OrderClaimOutlivesTraffic(trace: seq<Timed>, claims: seq<Claim>, now: int)
    requires forall c :: c in claims ==> StillClaims(trace, c, now)
    requires forall i, j :: 0 <= i < j < |trace| ==> trace[i].at <= trace[j].at
    requires forall i :: 0 <= i < |trace| ==> trace[i].at <= now
    ensures forall c :: c in claims ==>
      && StatusOf(Play(EMPTY, trace), c.key, Some(c.token), now) == HELD_BY_ME
      && forall ttl, other :: CreateHold(Play(EMPTY, trace), c.key, ttl, other, now).1 == Err(HeldByAnother)
  {
    forall c | c in claims
      ensures StatusOf(Play(EMPTY, trace), c.key, Some(c.token), now) == HELD_BY_ME
      ensures forall ttl, other :: CreateHold(Play(EMPTY, trace), c.key, ttl, other, now).1 == Err(HeldByAnother)
    {
      SeatClaimOutlivesTraffic(trace, c, now);
    }
  }
}
