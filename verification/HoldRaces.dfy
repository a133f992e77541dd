/** When a check-then-act call acts on the wrong hold. renewHold, releaseHold and reserveForOrder read
    the token with GET and then send EXPIRE or DEL for the key: what stands there may have changed. */
module HoldRaces {
  import opened Common
  import opened Venue
  import opened HoldCommands

  /** A caller whose GET has matched: the seat, its token, and the log's length at that moment. */
  datatype Match = Match(key: SeatKey, token: Token, since: nat)

  function MatchOf(pc: Pc): Option<Match> {
    match pc
    case RenewMatched(key, token, _, since) => Some(Match(key, token, since))
    case ReleaseMatched(key, token, since) => Some(Match(key, token, since))
    case ClaimMatched(key, token, since) => Some(Match(key, token, since))
    case _ => None
  }

  /** Entry `i` of the log is a SET NX on the seat that took effect after the caller's GET. */
  predicate SetSince(log: seq<Event>, x: Match, i: nat) {
    x.since <= i < |log| && log[i].WasSet? && log[i].key == x.key
  }

  /** Since the GET a SET NX has taken the seat, and the hold it put is still live. */
  ghost predicate Replaced(m: Machine, x: Match) {
    exists i: nat :: SetSince(m.log, x, i) && Get(m.holds, x.key, m.now) == Some(m.log[i].token)
  }

  // ----- Invariant -----

  /** Tokens set since the GET are not the caller's, and a hold that is not the caller's was set since. */
  ghost predicate MatchOk(m: Machine, x: Match) {
    && x.since <= |m.log| && x.token in m.seen
    && (forall i: nat :: SetSince(m.log, x, i) ==> m.log[i].token != x.token)
    && (x.key in m.holds && m.holds[x.key].token != x.token ==>
          exists i: nat :: SetSince(m.log, x, i) && m.log[i].token == m.holds[x.key].token)
  }

  ghost predicate RacesOk(m: Machine) {
    forall who :: who in m.callers && MatchOf(m.callers[who]).Some? ==> MatchOk(m, MatchOf(m.callers[who]).value)
  }

  /** Entry `i` of the log set this hold's token. */
  predicate PutBy(log: seq<Event>, i: nat, key: SeatKey, token: Token) {
    i < |log| && log[i].WasSet? && log[i].key == key && log[i].token == token
  }

  /** One command: the log only grows, a SET draws an unseen token, and a hold's token changes by a
      SET only. */
  ghost predicate Moves(m: Machine, n: Machine) {
    && m.log <= n.log && m.seen <= n.seen
    && (forall i :: |m.log| <= i < |n.log| && n.log[i].WasSet? ==> n.log[i].token !in m.seen)
    && (forall key :: key in n.holds ==>
          || (key in m.holds && n.holds[key].token == m.holds[key].token)
          || exists i: nat :: |m.log| <= i && PutBy(n.log, i, key, n.holds[key].token))
  }

  /** A caller that stands at a match stood there before, or has just matched. */
  ghost predicate Arrives(m: Machine, n: Machine) {
    forall who :: who in n.callers && MatchOf(n.callers[who]).Some? ==>
      var x := MatchOf(n.callers[who]).value;
      || (who in m.callers && m.callers[who] == n.callers[who])
      || (n.log == m.log && n.holds == m.holds && x.since == |n.log| && x.token in n.seen && Get(m.holds, x.key, m.now) == Some(x.token))
  }

  lemma MatchStays(m: Machine, n: Machine, x: Match)
    requires MatchOk(m, x) && Moves(m, n)
    ensures MatchOk(n, x)
  {
    forall i: nat | SetSince(n.log, x, i) ensures n.log[i].token != x.token {
      if i < |m.log| { assert SetSince(m.log, x, i); }
    }
    if x.key in n.holds && n.holds[x.key].token != x.token {
      if x.key in m.holds && n.holds[x.key].token == m.holds[x.key].token {
        var i: nat :| SetSince(m.log, x, i) && m.log[i].token == m.holds[x.key].token;
        assert SetSince(n.log, x, i) && n.log[i].token == n.holds[x.key].token;
      } else {
        var i: nat :| |m.log| <= i && PutBy(n.log, i, x.key, n.holds[x.key].token);
        assert SetSince(n.log, x, i);
      }
    }
  }

  lemma RacesStay(m: Machine, n: Machine)
    requires RacesOk(m) && Moves(m, n) && Arrives(m, n)
    ensures RacesOk(n)
  {
    forall who | who in n.callers && MatchOf(n.callers[who]).Some? ensures MatchOk(n, MatchOf(n.callers[who]).value) {
      if who in m.callers && m.callers[who] == n.callers[who] { MatchStays(m, n, MatchOf(m.callers[who]).value); }
    }
  }

  lemma SetsMove(m: Machine, key: SeatKey, token: Token, ttl: nat)
    requires token !in m.seen
    ensures Moves(m, Sets(m, key, token, ttl))
  {
    var n := Sets(m, key, token, ttl);
    if Get(m.holds, key, m.now).None? { assert PutBy(n.log, |m.log|, key, n.holds[key].token); }
  }

  lemma LeaveMoves(m: Machine, n: Machine, who: Id)
    requires Moves(m, n)
    ensures Moves(m, Leave(n, who))
  {
  }

  lemma TouchesMove(m: Machine, key: SeatKey, ttl: nat)
    ensures Moves(m, Touches(m, key, ttl))
    ensures forall e: Event :: !e.WasSet? ==> Moves(m, Notes(Touches(m, key, ttl), e))
  {
  }

  lemma DeletesMove(m: Machine, key: SeatKey)
    ensures Moves(m, Deletes(m, key))
  {
  }

  lemma ContinueMoves(m: Machine, step: Step, pc: Pc)
    ensures Moves(m, Continue(m, step, pc))
  {
    match step
    case CreateSet(who, token) =>
      hide Moves, Sets;
      QuietMoves(m, m);
      if pc.CreateChecked? && token !in m.seen {
        SetsMove(m, pc.key, token, pc.ttl);
        LeaveMoves(m, Sets(m, pc.key, token, pc.ttl), who);
      }
    case RenewExpire(who) =>
      hide Moves, Touches;
      QuietMoves(m, m);
      if pc.RenewMatched? {
        TouchesMove(m, pc.key, pc.ttl);
        LeaveMoves(m, Touches(m, pc.key, pc.ttl), who);
      }
    case ReleaseDel(who) =>
      hide Moves, Deletes;
      QuietMoves(m, m);
      if pc.ReleaseMatched? {
        DeletesMove(m, pc.key);
        LeaveMoves(m, Deletes(m, pc.key), who);
      }
    case SellDel(who) =>
      hide Moves, Deletes;
      QuietMoves(m, m);
      if pc.SellSaved? {
        DeletesMove(m, pc.key);
        LeaveMoves(m, Deletes(m, pc.key), who);
      }
    case ClaimExpire(who) =>
      hide Moves, Touches, Notes;
      QuietMoves(m, m);
      if pc.ClaimMatched? {
        TouchesMove(m, pc.key, ORDER_HOLD_TTL_SECONDS);
        LeaveMoves(m, Notes(Touches(m, pc.key, ORDER_HOLD_TTL_SECONDS), Claimed(pc.key, pc.token)), who);
      }
    case _ =>
  }

  lemma ContinueArrives(m: Machine, step: Step, pc: Pc)
    requires Inv(m) && PcSound(m, pc) && !step.Pass? && !step.FreeDel?
    requires step.who in m.callers && m.callers[step.who] == pc
    ensures Arrives(m, Continue(m, step, pc))
  {
    hide HoldsMatchLog, RowsMatchLog, Del, Expire;
    if step.ClaimGet? && pc.ClaimSeen? { assert WasPut(m.log, pc.key, pc.token, false); }
    hide WasPut;
  }

  lemma QuietMoves(m: Machine, n: Machine)
    requires n.log == m.log && n.holds == m.holds && m.seen <= n.seen
    ensures Moves(m, n)
  {
  }

  /** The steps with which a caller arrives or leaves, and time. */
  lemma EntryKeepsRaces(m: Machine, step: Step)
    requires RacesOk(m)
    requires step.Pass? || step.Vanish? || step.CreateLookup? || step.RenewGet? || step.ReleaseGet? || step.SellLookup? || step.LookRows?
    ensures RacesOk(Next(m, step))
  {
    var n := Next(m, step);
    assert n.log == m.log && n.holds == m.holds && m.seen <= n.seen;
    QuietMoves(m, n);
    assert Arrives(m, n);
    hide Arrives, Moves, RacesOk, Next;
    RacesStay(m, n);
  }

  lemma ContinueKeepsRaces(m: Machine, step: Step)
    requires Inv(m) && RacesOk(m) && !step.Pass? && !step.FreeDel? && step.who in m.callers
    ensures RacesOk(Continue(m, step, m.callers[step.who]))
  {
    var pc := m.callers[step.who];
    assert PcSound(m, pc);
    ContinueMoves(m, step, pc);
    ContinueArrives(m, step, pc);
    RacesStay(m, Continue(m, step, pc));
  }

  lemma NextKeepsRaces(m: Machine, step: Step)
    requires Inv(m) && RacesOk(m)
    ensures RacesOk(Next(m, step))
  {
    hide Inv, RacesOk, Continue, Get;
    match step
    case FreeDel(key) => RacesStay(m, Deletes(m, key));
    case Pass(_) => EntryKeepsRaces(m, step);
    case Vanish(_) => EntryKeepsRaces(m, step);
    case CreateLookup(_, _, _) => EntryKeepsRaces(m, step);
    case RenewGet(_, _, _, _) => EntryKeepsRaces(m, step);
    case ReleaseGet(_, _, _) => EntryKeepsRaces(m, step);
    case SellLookup(_, _, _) => EntryKeepsRaces(m, step);
    case LookRows(_, _, _) => EntryKeepsRaces(m, step);
    case _ => if step.who in m.callers { ContinueKeepsRaces(m, step); }
  }

  lemma {:induction false} RunKeepsRaces(steps: seq<Step>)
    ensures RacesOk(Run(START, steps))
    decreases |steps|
  {
    if steps != [] {
      var most := steps[..|steps| - 1];
      RunKeepsRaces(most);
      RunKeeps(most);
      NextKeepsRaces(Run(START, most), steps[|steps| - 1]);
    }
  }

  // ----- The exact condition, for all three calls -----

  /** The live hold that stands on the caller's seat now is another token's. */
  predicate Strangers(m: Machine, x: Match) {
    Get(m.holds, x.key, m.now).Some? && Get(m.holds, x.key, m.now) != Some(x.token)
  }

  /** In every run: what stands on a matched caller's seat is another's hold if and only if a SET NX has
      taken the seat since the GET and the hold it put is still live; and it is the caller's own hold if
      and only if a hold stands there and no such SET did. */
  lemma MatchedSeatsExactly(steps: seq<Step>, m: Machine, who: Id)
    requires m == Run(START, steps) && who in m.callers && MatchOf(m.callers[who]).Some?
    ensures var x := MatchOf(m.callers[who]).value;
      && (Strangers(m, x) <==> Replaced(m, x))
      && (Get(m.holds, x.key, m.now) == Some(x.token) <==> Get(m.holds, x.key, m.now).Some? && !Replaced(m, x))
  {
    RunKeepsRaces(steps);
  }

  /** renewHold's EXPIRE restarts another buyer's hold if and only if the seat has been retaken since the
      GET; otherwise it restarts its own hold, or finds nothing and changes nothing. */
  lemma RenewalHitsExactly(steps: seq<Step>, m: Machine, who: Id)
    requires m == Run(START, steps) && who in m.callers && m.callers[who].RenewMatched?
    ensures var pc := m.callers[who];
      var x := MatchOf(pc).value;
      var n := Next(m, RenewExpire(who));
      && (Replaced(m, x) <==> Strangers(m, x))
      && (if Get(m.holds, x.key, m.now).None? then n.holds == m.holds
          else n.holds == m.holds[x.key := Hold(if Strangers(m, x) then m.holds[x.key].token else x.token, m.now + pc.ttl)])
  {
    RunKeepsRaces(steps);
  }

  /** releaseHold's DEL removes another buyer's live hold if and only if the seat has been retaken since
      the GET; whatever stands there goes, and nothing else does. */
  lemma ReleaseHitsExactly(steps: seq<Step>, m: Machine, who: Id)
    requires m == Run(START, steps) && who in m.callers && m.callers[who].ReleaseMatched?
    ensures var x := MatchOf(m.callers[who]).value;
      var n := Next(m, ReleaseDel(who));
      && (Replaced(m, x) <==> Strangers(m, x)) && n.holds == m.holds - {x.key}
      && (Replaced(m, x) <==> exists other :: other != x.token && Get(m.holds, x.key, m.now) == Some(other) && Get(n.holds, x.key, m.now).None?)
  {
    RunKeepsRaces(steps);
    var x := MatchOf(m.callers[who]).value;
    if Strangers(m, x) {
      var other := Get(m.holds, x.key, m.now).value;
      assert other != x.token && Get(m.holds, x.key, m.now) == Some(other);
    }
  }

  /** create()'s claim is logged as granted whatever its EXPIRE found. It holds the seat if and only if a
      hold still stands there and the seat has not been retaken since the GET; and it stretches
      another buyer's hold if and only if it has. */
  lemma ClaimHitsExactly(steps: seq<Step>, m: Machine, who: Id)
    requires m == Run(START, steps) && who in m.callers && m.callers[who].ClaimMatched?
    ensures var x := MatchOf(m.callers[who]).value;
      var n := Next(m, ClaimExpire(who));
      && |n.log| > |m.log| && n.log[|n.log| - 1] == Claimed(x.key, x.token)
      && (Get(n.holds, x.key, n.now) == Some(x.token) <==> Get(m.holds, x.key, m.now).Some? && !Replaced(m, x))
      && (Replaced(m, x) <==> Strangers(m, x))
      && (if Get(m.holds, x.key, m.now).None? then n.holds == m.holds
          else n.holds == m.holds[x.key := Hold(if Strangers(m, x) then m.holds[x.key].token else x.token,
                                                m.now + ORDER_HOLD_TTL_SECONDS)])
  {
    RunKeepsRaces(steps);
    ClaimHits(m, who);
  }

  lemma ClaimHits(m: Machine, who: Id)
    requires who in m.callers && m.callers[who].ClaimMatched? && MatchOk(m, MatchOf(m.callers[who]).value)
    ensures var x := MatchOf(m.callers[who]).value;
      var n := Next(m, ClaimExpire(who));
      && |n.log| > |m.log| && n.log[|n.log| - 1] == Claimed(x.key, x.token)
      && (Get(n.holds, x.key, n.now) == Some(x.token) <==> Get(m.holds, x.key, m.now).Some? && !Replaced(m, x))
      && (Replaced(m, x) <==> Strangers(m, x))
      && (if Get(m.holds, x.key, m.now).None? then n.holds == m.holds
          else n.holds == m.holds[x.key := Hold(if Strangers(m, x) then m.holds[x.key].token else x.token,
                                                m.now + ORDER_HOLD_TTL_SECONDS)])
  {
    var pc := m.callers[who];
    var x := MatchOf(pc).value;
    assert Next(m, ClaimExpire(who)) == Leave(Notes(Touches(m, x.key, ORDER_HOLD_TTL_SECONDS), Claimed(x.key, x.token)), who);
    StrangersExactly(m, x);
  }

  lemma StrangersExactly(m: Machine, x: Match)
    requires MatchOk(m, x)
    ensures Strangers(m, x) <==> Replaced(m, x)
  {
  }

  // ----- Runs that retake the seat in the gap -----

  /** Two clients and a held, unsold seat. */
  predicate Contested(m: Machine, me: Id, other: Id, key: SeatKey, mine: Token, theirs: Token, later: int) {
    && me != other && other !in m.callers && key !in m.sold && Get(m.holds, key, m.now) == Some(mine)
    && theirs != mine && theirs !in m.seen && m.now <= later && m.holds[key].expiresAt <= later
  }

  /** The hold lapses and the other client takes the seat. */
  function Retaken(m: Machine, other: Id, key: SeatKey, theirs: Token, later: int): Machine {
    Next(Next(Next(m, Pass(later)), CreateLookup(other, key, HOLD_TTL_SECONDS)), CreateSet(other, theirs))
  }

  lemma SeatRetaken(m: Machine, me: Id, other: Id, key: SeatKey, mine: Token, theirs: Token, later: int)
    requires Contested(m, me, other, key, mine, theirs, later)
    ensures var taken := Retaken(m, other, key, theirs, later);
      && taken.now == later && taken.holds == m.holds[key := Hold(theirs, later + HOLD_TTL_SECONDS)]
      && (me in m.callers ==> me in taken.callers && taken.callers[me] == m.callers[me])
  {
    var looked := Next(Next(m, Pass(later)), CreateLookup(other, key, HOLD_TTL_SECONDS));
    assert looked == m.(now := later, callers := m.callers[other := CreateChecked(key, HOLD_TTL_SECONDS)]);
    assert Next(looked, CreateSet(other, theirs)) == Continue(looked, CreateSet(other, theirs), CreateChecked(key, HOLD_TTL_SECONDS));
  }

  /** Such a machine is reachable: one client creates a hold. */
  lemma ContestIsReachable(key: SeatKey)
    ensures Contested(Run(START, [CreateLookup(0, key, HOLD_TTL_SECONDS), CreateSet(0, 1)]), 0, 2, key, 1, 2, HOLD_TTL_SECONDS)
    ensures 0 !in Run(START, [CreateLookup(0, key, HOLD_TTL_SECONDS), CreateSet(0, 1)]).callers
  {
    var steps := [CreateLookup(0, key, HOLD_TTL_SECONDS), CreateSet(0, 1)];
    assert steps[..1] == [steps[0]] && steps[..1][..0] == [];
    assert Run(START, steps[..1]) == Next(START, steps[0]);
  }

  /** Between its GET and its EXPIRE a renewal loses the seat: it then stretches the other buyer's hold. */
  lemma RenewalCanStretchAnothersHold(m: Machine, me: Id, other: Id, key: SeatKey, mine: Token, theirs: Token, ttl: nat, later: int)
    requires me !in m.callers && Contested(m, me, other, key, mine, theirs, later)
    ensures Next(Retaken(Next(m, RenewGet(me, key, mine, ttl)), other, key, theirs, later), RenewExpire(me)).holds
      == m.holds[key := Hold(theirs, later + ttl)]
  {
    var matched := Next(m, RenewGet(me, key, mine, ttl));
    assert matched == m.(seen := m.seen + {mine}, callers := m.callers[me := RenewMatched(key, mine, ttl, |m.log|)]);
    SeatRetaken(matched, me, other, key, mine, theirs, later);
    var taken := Retaken(matched, other, key, theirs, later);
    assert Next(taken, RenewExpire(me)) == Continue(taken, RenewExpire(me), taken.callers[me]);
  }

  /** Between its GET and its DEL a release loses the seat: it then removes the other buyer's live hold. */
  lemma ReleaseCanDropAnothersHold(m: Machine, me: Id, other: Id, key: SeatKey, mine: Token, theirs: Token, later: int)
    requires me !in m.callers && Contested(m, me, other, key, mine, theirs, later)
    ensures var taken := Retaken(Next(m, ReleaseGet(me, key, mine)), other, key, theirs, later);
      Get(taken.holds, key, taken.now) == Some(theirs) && key !in Next(taken, ReleaseDel(me)).holds
  {
    var matched := Next(m, ReleaseGet(me, key, mine));
    assert matched == m.(seen := m.seen + {mine}, callers := m.callers[me := ReleaseMatched(key, mine, |m.log|)]);
    SeatRetaken(matched, me, other, key, mine, theirs, later);
    var taken := Retaken(matched, other, key, theirs, later);
    assert Next(taken, ReleaseDel(me)) == Continue(taken, ReleaseDel(me), taken.callers[me]);
  }

  /** Between its GET and its EXPIRE a create() loses the seat: it goes on with a claim on the other
      buyer's hold, and stretches that hold for them. */
  lemma ClaimCanBeHollow(m: Machine, me: Id, other: Id, key: SeatKey, mine: Token, theirs: Token, later: int)
    requires me in m.callers && m.callers[me] == ClaimSeen(key, mine) && Contested(m, me, other, key, mine, theirs, later)
    ensures var claimed := Next(Retaken(Next(m, ClaimGet(me)), other, key, theirs, later), ClaimExpire(me));
      && |claimed.log| > 0 && claimed.log[|claimed.log| - 1] == Claimed(key, mine)
      && claimed.holds == m.holds[key := Hold(theirs, later + ORDER_HOLD_TTL_SECONDS)]
  {
    var matched := Next(m, ClaimGet(me));
    ClaimMatches(m, me, key, mine);
    hide Next, Retaken;
    SeatRetaken(matched, me, other, key, mine, theirs, later);
    HollowClaim(Retaken(matched, other, key, theirs, later), me, key, mine, |m.log|, theirs);
  }

  lemma ClaimMatches(m: Machine, me: Id, key: SeatKey, mine: Token)
    requires me in m.callers && m.callers[me] == ClaimSeen(key, mine) && Get(m.holds, key, m.now) == Some(mine)
    ensures Next(m, ClaimGet(me)) == m.(callers := m.callers[me := ClaimMatched(key, mine, |m.log|)])
  {
  }

  lemma HollowClaim(taken: Machine, me: Id, key: SeatKey, mine: Token, since: nat, theirs: Token)
    requires me in taken.callers && taken.callers[me] == ClaimMatched(key, mine, since) && Get(taken.holds, key, taken.now) == Some(theirs)
    ensures var claimed := Next(taken, ClaimExpire(me));
      && |claimed.log| > 0 && claimed.log[|claimed.log| - 1] == Claimed(key, mine)
      && claimed.holds == taken.holds[key := Hold(theirs, taken.now + ORDER_HOLD_TTL_SECONDS)]
  {
    assert Next(taken, ClaimExpire(me)) == Continue(taken, ClaimExpire(me), taken.callers[me]);
  }
}
