/** redeem(), one database command a step: it counts the pair's rows, checks the cap and then inserts,
    and nothing orders the calls that do so at once. */
module RedeemRace {
  import opened Common
  import opened Offers

  /** A call that has counted below the cap and is still to insert; `seen` is what it counted. */
  datatype Call = Call(offerId: Id, ticketId: Id, staffId: Id, seen: nat)

  datatype State = State(rows: seq<Redemption>, calls: map<Id, Call>)

  const START := State([], map[])

  /** CountRows carries an offer and a ticket of one of its tiers; a refused call leaves. */
  datatype Step =
    | CountRows(call: Id, offerId: Id, ticketId: Id, staffId: Id)
    | Insert(call: Id)
    | Vanish(call: Id)

  /** The offers' effective caps, fixed for the run. */
  type Caps = map<Id, Option<int>>

  function Next(caps: Caps, st: State, step: Step): State {
    match step
    case CountRows(call, o, t, staffId) =>
      var seen := Count(st.rows, o, t);
      if call in st.calls || o !in caps || (caps[o].Some? && seen >= caps[o].value) then st
      else st.(calls := st.calls[call := Call(o, t, staffId, seen)])
    case Insert(call) =>
      if call !in st.calls then st
      else State(st.rows + [Redemption(st.calls[call].offerId, st.calls[call].ticketId, st.calls[call].staffId)], st.calls - {call})
    case Vanish(call) => st.(calls := st.calls - {call})
  }

  function Run(caps: Caps, steps: seq<Step>): State
    decreases |steps|
  {
    if steps == [] then START else Next(caps, Run(caps, steps[..|steps| - 1]), steps[|steps| - 1])
  }

  /** The calls between their count and their insert, for this pair. */
  function Pending(st: State, o: Id, t: Id): set<Id> {
    set c | c in st.calls && st.calls[c].offerId == o && st.calls[c].ticketId == t
  }

  // ----- Exactly when the cap is passed -----

  /** A call inserts for the pair although the cap has been reached since it counted. */
  predicate Stale(cap: int, st: State, step: Step, o: Id, t: Id) {
    step.Insert? && step.call in Pending(st, o, t) && Count(st.rows, o, t) >= cap
  }

  ghost predicate StaleAt(caps: Caps, cap: int, steps: seq<Step>, k: nat, o: Id, t: Id)
    requires k < |steps|
  {
    Stale(cap, Run(caps, steps[..k]), steps[k], o, t)
  }

  lemma StalePrefix(caps: Caps, cap: int, steps: seq<Step>, o: Id, t: Id)
    requires steps != []
    ensures var most := steps[..|steps| - 1];
      (exists k :: 0 <= k < |steps| && StaleAt(caps, cap, steps, k, o, t))
      <==> (exists k :: 0 <= k < |most| && StaleAt(caps, cap, most, k, o, t)) || StaleAt(caps, cap, steps, |steps| - 1, o, t)
  {
    var most := steps[..|steps| - 1];
    forall k | 0 <= k < |most| ensures StaleAt(caps, cap, most, k, o, t) <==> StaleAt(caps, cap, steps, k, o, t) {
      assert most[..k] == steps[..k];
    }
  }

  lemma CountStep(caps: Caps, st: State, step: Step, o: Id, t: Id)
    ensures Count(Next(caps, st, step).rows, o, t)
      == Count(st.rows, o, t) + (if step.Insert? && step.call in Pending(st, o, t) then 1 else 0)
  {
    if step.Insert? && step.call in st.calls {
      CountGrows(st.rows, Redemption(st.calls[step.call].offerId, st.calls[step.call].ticketId, st.calls[step.call].staffId), o, t);
    }
  }

  /** In every interleaving a ticket's redemptions of an offer pass its cap if and only if some call
      inserts although, since it counted, the others have used the cap up. */
  lemma {:induction false} PassedExactly(caps: Caps, cap: int, steps: seq<Step>, o: Id, t: Id)
    requires cap >= 0
    ensures Count(Run(caps, steps).rows, o, t) > cap <==> exists k :: 0 <= k < |steps| && StaleAt(caps, cap, steps, k, o, t)
    decreases |steps|
  {
    if steps != [] {
      var most := steps[..|steps| - 1];
      PassedExactly(caps, cap, most, o, t);
      StalePrefix(caps, cap, steps, o, t);
      CountStep(caps, Run(caps, most), steps[|steps| - 1], o, t);
    }
  }

  // ----- By how much -----

  /** At no moment of the run are more than `m` calls for the pair between their count and their insert. */
  ghost predicate AtMost(caps: Caps, steps: seq<Step>, o: Id, t: Id, m: nat) {
    forall k :: 0 <= k <= |steps| ==> |Pending(Run(caps, steps[..k]), o, t)| <= m
  }

  lemma AtMostPrefix(caps: Caps, steps: seq<Step>, o: Id, t: Id, m: nat)
    requires AtMost(caps, steps, o, t, m) && steps != []
    ensures AtMost(caps, steps[..|steps| - 1], o, t, m) && |Pending(Run(caps, steps), o, t)| <= m
  {
    var most := steps[..|steps| - 1];
    forall k | 0 <= k <= |most| ensures |Pending(Run(caps, most[..k]), o, t)| <= m { assert most[..k] == steps[..k]; }
    assert steps[..|steps|] == steps;
  }

  /** Each use or departure leaves one call fewer, each count below the cap starts afresh. */
  ghost predicate Bounded(st: State, o: Id, t: Id, cap: int, m: nat) {
    Count(st.rows, o, t) + |Pending(st, o, t)| < cap + m || (Count(st.rows, o, t) == 0 && Pending(st, o, t) == {})
  }

  lemma CountedPair(caps: Caps, st: State, step: Step, o: Id, t: Id)
    requires step.CountRows? && (o != step.offerId || t != step.ticketId || Next(caps, st, step) == st)
    ensures Pending(Next(caps, st, step), o, t) == Pending(st, o, t)
  {
  }

  lemma PendingStep(caps: Caps, st: State, step: Step, o: Id, t: Id)
    ensures var before, after := Pending(st, o, t), Pending(Next(caps, st, step), o, t);
      || (!step.CountRows? && step.call in before && after == before - {step.call} && |after| == |before| - 1)
      || (!(step.Insert? && step.call in before) && after == before)
      || (step.CountRows? && o in caps && (caps[o].Some? ==> Count(st.rows, o, t) < caps[o].value))
  {
    var before, after := Pending(st, o, t), Pending(Next(caps, st, step), o, t);
    if !step.CountRows? {
      if step.call in before { assert after == before - {step.call}; } else { assert after == before; }
    } else if o != step.offerId || t != step.ticketId || Next(caps, st, step) == st {
      CountedPair(caps, st, step, o, t);
    }
  }

  lemma BoundStep(caps: Caps, st: State, step: Step, o: Id, t: Id, cap: int, m: nat)
    requires o in caps && caps[o] == Some(cap) && Bounded(st, o, t, cap, m)
    requires |Pending(Next(caps, st, step), o, t)| <= m
    ensures Bounded(Next(caps, st, step), o, t, cap, m)
  {
    CountStep(caps, st, step, o, t);
    PendingStep(caps, st, step, o, t);
  }

  lemma {:induction false} RunBound(caps: Caps, steps: seq<Step>, o: Id, t: Id, cap: int, m: nat)
    requires o in caps && caps[o] == Some(cap) && AtMost(caps, steps, o, t, m)
    ensures Bounded(Run(caps, steps), o, t, cap, m)
    decreases |steps|
  {
    if steps != [] {
      AtMostPrefix(caps, steps, o, t, m);
      RunBound(caps, steps[..|steps| - 1], o, t, cap, m);
      BoundStep(caps, Run(caps, steps[..|steps| - 1]), steps[|steps| - 1], o, t, cap, m);
    }
  }

  /** While at most `m` calls for the pair overlap, its redemptions pass the cap by m - 1 at most: never,
      when no two calls overlap. */
  lemma OverlapBoundsTheExcess(caps: Caps, steps: seq<Step>, o: Id, t: Id, cap: int, m: nat)
    requires o in caps && caps[o] == Some(cap) && cap >= 0 && m > 0 && AtMost(caps, steps, o, t, m)
    ensures Count(Run(caps, steps).rows, o, t) <= cap + m - 1
  {
    RunBound(caps, steps, o, t, cap, m);
  }

  // ----- The bound is attained -----

  /** `n` calls, one after the other. */
  function Singly(o: Id, t: Id, n: nat): seq<Step> {
    if n == 0 then [] else Singly(o, t, n - 1) + [CountRows(0, o, t, 0)] + [Insert(0)]
  }

  function Counts(o: Id, t: Id, m: nat): seq<Step> {
    if m == 0 then [] else Counts(o, t, m - 1) + [CountRows(m - 1, o, t, 0)]
  }

  function Inserts(m: nat): seq<Step> {
    if m == 0 then [] else Inserts(m - 1) + [Insert(m - 1)]
  }

  lemma Extend(caps: Caps, steps: seq<Step>, step: Step)
    ensures Run(caps, steps + [step]) == Next(caps, Run(caps, steps), step)
  {
    assert (steps + [step])[..|steps|] == steps;
  }

  lemma OneCounts(caps: Caps, st: State, c: Id, o: Id, t: Id, cap: int)
    requires o in caps && caps[o] == Some(cap) && Count(st.rows, o, t) < cap && c !in st.calls
    ensures Next(caps, st, CountRows(c, o, t, 0)) == State(st.rows, st.calls[c := Call(o, t, 0, Count(st.rows, o, t))])
  {
  }

  lemma OneInserts(caps: Caps, st: State, c: Id, o: Id, t: Id)
    requires c in st.calls && st.calls[c].offerId == o && st.calls[c].ticketId == t
    ensures var n := Next(caps, st, Insert(c)); n.calls == st.calls - {c} && Count(n.rows, o, t) == Count(st.rows, o, t) + 1
  {
    CountGrows(st.rows, Redemption(o, t, st.calls[c].staffId), o, t);
  }

  lemma {:induction false} SinglyRuns(caps: Caps, o: Id, t: Id, cap: int, n: nat)
    requires o in caps && caps[o] == Some(cap) && n <= cap
    ensures var st := Run(caps, Singly(o, t, n)); st.calls == map[] && Count(st.rows, o, t) == n
  {
    if n > 0 {
      SinglyRuns(caps, o, t, cap, n - 1);
      OneMore(caps, Singly(o, t, n - 1), o, t, cap, n - 1);
    }
  }

  lemma OneMore(caps: Caps, before: seq<Step>, o: Id, t: Id, cap: int, n: nat)
    requires o in caps && caps[o] == Some(cap) && n < cap
    requires var st := Run(caps, before); st.calls == map[] && Count(st.rows, o, t) == n
    ensures var st := Run(caps, before + [CountRows(0, o, t, 0)] + [Insert(0)]); st.calls == map[] && Count(st.rows, o, t) == n + 1
  {
    hide *;
    var st := Run(caps, before);
    Extend(caps, before, CountRows(0, o, t, 0));
    OneCounts(caps, st, 0, o, t, cap);
    Extend(caps, before + [CountRows(0, o, t, 0)], Insert(0));
    OneInserts(caps, Next(caps, st, CountRows(0, o, t, 0)), 0, o, t);
    assert map[0 := Call(o, t, 0, n)] - {0} == map[];
  }

  /** Exactly the calls numbered below `m` have counted, all for the pair. */
  ghost predicate Counted(st: State, o: Id, t: Id, m: nat) {
    && (forall c: Id :: c in st.calls <==> c < m)
    && (forall c: Id :: c in st.calls ==> st.calls[c].offerId == o && st.calls[c].ticketId == t)
  }

  lemma CountsSnoc(before: seq<Step>, o: Id, t: Id, m: nat)
    ensures before + Counts(o, t, 0) == before
    ensures m > 0 ==> before + Counts(o, t, m) == before + Counts(o, t, m - 1) + [CountRows(m - 1, o, t, 0)]
  {
  }

  lemma {:induction false} CountsRun(caps: Caps, before: seq<Step>, o: Id, t: Id, cap: int, m: nat)
    requires o in caps && caps[o] == Some(cap)
    requires var st := Run(caps, before); st.calls == map[] && Count(st.rows, o, t) < cap
    ensures var n := Run(caps, before + Counts(o, t, m)); n.rows == Run(caps, before).rows && Counted(n, o, t, m)
  {
    hide Run, Next, Counts, Count;
    CountsSnoc(before, o, t, m);
    if m > 0 {
      CountsRun(caps, before, o, t, cap, m - 1);
      Extend(caps, before + Counts(o, t, m - 1), CountRows(m - 1, o, t, 0));
      OneCounts(caps, Run(caps, before + Counts(o, t, m - 1)), m - 1, o, t, cap);
    }
  }

  lemma InsertsSnoc(before: seq<Step>, m: nat)
    ensures before + Inserts(0) == before
    ensures m > 0 ==> before + Inserts(m) == before + Inserts(m - 1) + [Insert(m - 1)]
  {
  }

  lemma {:induction false} InsertsRun(caps: Caps, before: seq<Step>, o: Id, t: Id, m: nat)
    requires forall c: Id :: c < m ==>
      c in Run(caps, before).calls && Run(caps, before).calls[c].offerId == o && Run(caps, before).calls[c].ticketId == t
    ensures var st, n := Run(caps, before), Run(caps, before + Inserts(m));
      && Count(n.rows, o, t) == Count(st.rows, o, t) + m
      && forall c: Id :: m <= c && c in st.calls ==> c in n.calls && n.calls[c] == st.calls[c]
  {
    hide Run, Next, Inserts, Count;
    InsertsSnoc(before, m);
    if m > 0 {
      InsertsRun(caps, before, o, t, m - 1);
      Extend(caps, before + Inserts(m - 1), Insert(m - 1));
      OneInserts(caps, Run(caps, before + Inserts(m - 1)), m - 1, o, t);
    }
  }

  /** Calls numbered below `m` are at most `m`. */
  lemma {:induction false} FewNames(names: set<Id>, m: nat)
    requires forall c :: c in names ==> c < m
    ensures |names| <= m
  {
    if m > 0 {
      FewNames(names - {m - 1}, m - 1);
      assert names <= (names - {m - 1}) + {m - 1};
    } else {
      assert names == {};
    }
  }

  lemma {:induction false} NamesStay(caps: Caps, steps: seq<Step>, m: nat)
    requires forall k :: 0 <= k < |steps| ==> steps[k].call < m
    ensures forall c :: c in Run(caps, steps).calls ==> c < m
    decreases |steps|
  {
    if steps != [] { NamesStay(caps, steps[..|steps| - 1], m); }
  }

  lemma {:induction false} RushNames(o: Id, t: Id, n: nat, m: nat)
    requires m > 0
    ensures forall s :: s in Singly(o, t, n) ==> s.call < m
    ensures forall s :: s in Counts(o, t, m) ==> s.call < m
    ensures forall s :: s in Inserts(m) ==> s.call < m
    decreases n + m
  {
    if n > 0 { RushNames(o, t, n - 1, m); }
    if m > 1 { RushNames(o, t, n, m - 1); }
    if m == 1 { assert Counts(o, t, 1) == [CountRows(0, o, t, 0)] && Inserts(1) == [Insert(0)]; }
  }

  function Rush(o: Id, t: Id, cap: int, m: nat): seq<Step>
    requires cap > 0
  {
    Singly(o, t, cap - 1) + Counts(o, t, m) + Inserts(m)
  }

  lemma RushOverlaps(caps: Caps, o: Id, t: Id, cap: int, m: nat)
    requires cap > 0 && m > 0
    ensures AtMost(caps, Rush(o, t, cap, m), o, t, m)
  {
    var steps := Rush(o, t, cap, m);
    RushNames(o, t, cap - 1, m);
    forall i | 0 <= i < |steps| ensures steps[i].call < m {
      assert steps[i] in Singly(o, t, cap - 1) || steps[i] in Counts(o, t, m) || steps[i] in Inserts(m);
    }
    hide Rush, Run, Next;
    forall k | 0 <= k <= |steps| ensures |Pending(Run(caps, steps[..k]), o, t)| <= m {
      NamesStay(caps, steps[..k], m);
      FewNames(Pending(Run(caps, steps[..k]), o, t), m);
    }
  }

  /** All but one of the cap is used call by call; then `m` calls count before any of them inserts. The
      overlap is `m`, and the cap is passed by m - 1. */
  lemma TheBoundIsAttained(caps: Caps, o: Id, t: Id, cap: int, m: nat)
    requires o in caps && caps[o] == Some(cap) && cap > 0 && m > 0
    ensures AtMost(caps, Rush(o, t, cap, m), o, t, m) && Count(Run(caps, Rush(o, t, cap, m)).rows, o, t) == cap + m - 1
  {
    var before := Singly(o, t, cap - 1);
    SinglyRuns(caps, o, t, cap, cap - 1);
    hide Run, Next, Singly, Counts, Inserts, Count, AtMost;
    CountsRun(caps, before, o, t, cap, m);
    InsertsRun(caps, before + Counts(o, t, m), o, t, m);
    RushOverlaps(caps, o, t, cap, m);
  }
}
