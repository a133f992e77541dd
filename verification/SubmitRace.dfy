/** submit() command by command, after its checks: find the ticket's pre-order, clear its lines or insert
    its row, and then save the new lines. Any number of calls interleave. */
module SubmitRace {
  import opened Common
  import opened FoodOrders
  import opened FoodRuns

  /** A call that has found the row, found none, or made the row ready; `since` is the log's length at
      that moment. */
  datatype Stage =
    | Clearing(id: Id)
    | Inserting
    | Saving(id: Id, since: nat)

  datatype Call = Call(ticketId: Id, dishes: seq<Dish>, stage: Stage)

  /** What happened to a row's lines (history only). */
  datatype Event = Cleared(id: Id) | Saved(id: Id, dishes: seq<Dish>)

  /** `tickets` is the unique order_item_id column, row by row. */
  datatype State = State(tickets: seq<Id>, lines: seq<Line>, calls: map<Id, Call>, log: seq<Event>)

  const START := State([], [], map[], [])

  function FindTicket(tickets: seq<Id>, ticketId: Id): (r: Option<nat>)
    ensures r.Some? ==> r.value < |tickets| && tickets[r.value] == ticketId
    ensures r.None? ==> ticketId !in tickets
  {
    if tickets == [] then None
    else if tickets[|tickets| - 1] == ticketId then Some(|tickets| - 1)
    else FindTicket(tickets[..|tickets| - 1], ticketId)
  }

  /** Find carries what the call has resolved its items to. */
  datatype Step =
    | Find(call: Id, ticketId: Id, dishes: seq<Dish>)
    | Clear(call: Id)
    | Insert(call: Id, fails: bool)
    | Save(call: Id, fails: bool)
    | Vanish(call: Id)

  function Moved(st: State, call: Id, stage: Stage): State
    requires call in st.calls
  {
    st.(calls := st.calls[call := st.calls[call].(stage := stage)])
  }

  function Next(st: State, step: Step): State {
    match step
    case Find(call, ticketId, dishes) =>
      if call in st.calls then st
      else
        var found := FindTicket(st.tickets, ticketId);
        st.(calls := st.calls[call := Call(ticketId, dishes, if found.Some? then Clearing(found.value) else Inserting)])
    case Clear(call) =>
      if call !in st.calls || !st.calls[call].stage.Clearing? then st
      else
        var id := st.calls[call].stage.id;
        Moved(st, call, Saving(id, |st.log| + 1)).(lines := Without(st.lines, id), log := st.log + [Cleared(id)])
    case Insert(call, fails) =>
      if call !in st.calls || !st.calls[call].stage.Inserting? then st
      else if fails || st.calls[call].ticketId in st.tickets then st.(calls := st.calls - {call})
      else
        var id := |st.tickets|;
        Moved(st, call, Saving(id, |st.log| + 1)).(tickets := st.tickets + [st.calls[call].ticketId], log := st.log + [Cleared(id)])
    case Save(call, fails) =>
      if call !in st.calls || !st.calls[call].stage.Saving? then st
      else if fails then st.(calls := st.calls - {call})
      else
        var id, dishes := st.calls[call].stage.id, st.calls[call].dishes;
        st.(lines := st.lines + AsLines(id, dishes), calls := st.calls - {call}, log := st.log + [Saved(id, dishes)])
    case Vanish(call) => st.(calls := st.calls - {call})
  }

  function Run(st: State, steps: seq<Step>): State
    decreases |steps|
  {
    if steps == [] then st else Next(Run(st, steps[..|steps| - 1]), steps[|steps| - 1])
  }

  // ----- What the history says -----

  /** The lines that pile up on a row: all that was saved since it was last cleared. */
  function Piled(log: seq<Event>, id: Id): seq<Dish>
    decreases |log|
  {
    if log == [] then []
    else
      var before, last := Piled(log[..|log| - 1], id), log[|log| - 1];
      if last.id != id then before else if last.Cleared? then [] else before + last.dishes
  }

  lemma PiledSnoc(log: seq<Event>, e: Event, id: Id)
    ensures Piled(log + [e], id) == if e.id != id then Piled(log, id) else if e.Cleared? then [] else Piled(log, id) + e.dishes
  {
    assert (log + [e])[..|log|] == log;
  }

  /** The log from entry `since` on. */
  function Since(log: seq<Event>, since: nat): seq<Event> {
    if since <= |log| then log[since..] else []
  }

  /** The row was cleared just before entry `since`. */
  predicate ClearedBefore(log: seq<Event>, since: nat, id: Id) {
    0 < since <= |log| && log[since - 1] == Cleared(id)
  }

  lemma {:induction false} PiledSince(log: seq<Event>, since: nat, id: Id)
    requires ClearedBefore(log, since, id)
    ensures Piled(log, id) == Piled(Since(log, since), id)
    decreases |log|
  {
    if since == |log| {
      assert log[since..] == [];
    } else {
      var most := log[..|log| - 1];
      PiledSince(most, since, id);
      assert log[since..] == most[since..] + [log[|log| - 1]];
      PiledSnoc(most[since..], log[|log| - 1], id);
    }
  }

  // ----- Invariant -----

  ghost predicate RowsOk(st: State) {
    && (forall a, b :: 0 <= a < b < |st.tickets| ==> st.tickets[a] != st.tickets[b])
    && (forall l :: l in st.lines ==> l.foodOrderId < |st.tickets|)
    && (forall e :: e in st.log ==> e.id < |st.tickets|)
    && (forall id: Id :: LinesOf(st.lines, id) == Piled(st.log, id))
  }

  ghost predicate CallsOk(st: State) {
    forall c :: c in st.calls ==>
      match st.calls[c].stage
      case Clearing(id) => id < |st.tickets| && st.tickets[id] == st.calls[c].ticketId
      case Inserting => true
      case Saving(id, since) => id < |st.tickets| && st.tickets[id] == st.calls[c].ticketId && ClearedBefore(st.log, since, id)
  }

  lemma ClearKeeps(st: State, call: Id)
    requires RowsOk(st) && call in st.calls && st.calls[call].stage.Clearing? && st.calls[call].stage.id < |st.tickets|
    ensures RowsOk(Next(st, Clear(call)))
  {
    var id := st.calls[call].stage.id;
    WithoutSubset(st.lines, id);
    forall o: Id ensures LinesOf(Without(st.lines, id), o) == Piled(st.log + [Cleared(id)], o) {
      LinesWithout(st.lines, id, o);
      PiledSnoc(st.log, Cleared(id), o);
    }
  }

  lemma InsertKeeps(st: State, call: Id)
    requires RowsOk(st) && call in st.calls && st.calls[call].stage.Inserting? && st.calls[call].ticketId !in st.tickets
    ensures RowsOk(Next(st, Insert(call, false)))
  {
    var id := |st.tickets|;
    NoLines(st.lines, id);
    forall o: Id ensures LinesOf(st.lines, o) == Piled(st.log + [Cleared(id)], o) { PiledSnoc(st.log, Cleared(id), o); }
  }

  lemma SaveKeeps(st: State, call: Id)
    requires RowsOk(st) && call in st.calls && st.calls[call].stage.Saving? && st.calls[call].stage.id < |st.tickets|
    ensures RowsOk(Next(st, Save(call, false)))
  {
    var id, dishes := st.calls[call].stage.id, st.calls[call].dishes;
    forall o: Id ensures LinesOf(st.lines + AsLines(id, dishes), o) == Piled(st.log + [Saved(id, dishes)], o) {
      LinesConcat(st.lines, AsLines(id, dishes), o);
      LinesAdded(id, dishes, o);
      PiledSnoc(st.log, Saved(id, dishes), o);
    }
  }

  lemma NextKeeps(st: State, step: Step)
    requires RowsOk(st) && CallsOk(st)
    ensures RowsOk(Next(st, step)) && CallsOk(Next(st, step))
  {
    CallsMove(st, step);
    hide CallsOk, Without, AsLines;
    match step
    case Clear(call) => if call in st.calls && st.calls[call].stage.Clearing? { AtRow(st, call); ClearKeeps(st, call); }
    case Insert(call, fails) =>
      if call in st.calls && st.calls[call].stage.Inserting? && !fails && st.calls[call].ticketId !in st.tickets { InsertKeeps(st, call); }
    case Save(call, fails) =>
      if call in st.calls && st.calls[call].stage.Saving? && !fails { AtRow(st, call); SaveKeeps(st, call); }
    case _ =>
  }

  lemma AtRow(st: State, call: Id)
    requires CallsOk(st) && call in st.calls && !st.calls[call].stage.Inserting?
    ensures st.calls[call].stage.id < |st.tickets|
  {
  }

  lemma CallsMove(st: State, step: Step)
    requires CallsOk(st)
    ensures CallsOk(Next(st, step))
  {
    hide Without, AsLines;
    var n := Next(st, step);
    assert st.tickets <= n.tickets && st.log <= n.log;
  }

  lemma {:induction false} RunKeeps(steps: seq<Step>)
    ensures RowsOk(Run(START, steps)) && CallsOk(Run(START, steps))
    decreases |steps|
  {
    if steps != [] {
      RunKeeps(steps[..|steps| - 1]);
      NextKeeps(Run(START, steps[..|steps| - 1]), steps[|steps| - 1]);
    }
  }

  // ----- Main results -----

  /** In every interleaving a ticket has at most one pre-order, and its lines are exactly what was saved
      since the row was last cleared, in that order. */
  lemma LinesArePiled(steps: seq<Step>, id: Id)
    ensures var st := Run(START, steps);
      && LinesOf(st.lines, id) == Piled(st.log, id)
      && forall a, b :: 0 <= a < b < |st.tickets| ==> st.tickets[a] != st.tickets[b]
  {
    RunKeeps(steps);
  }

  /** A submission replaces its ticket's lines exactly when nothing saved by others has piled up on the
      row since this call cleared or made it: otherwise the ticket ends with both, theirs first. */
  lemma ReplacesExactly(steps: seq<Step>, call: Id)
    requires var st := Run(START, steps); call in st.calls && st.calls[call].stage.Saving?
    ensures var st := Run(START, steps);
      var c := st.calls[call];
      var after := Next(st, Save(call, false));
      && LinesOf(after.lines, c.stage.id) == Piled(Since(st.log, c.stage.since), c.stage.id) + c.dishes
      && (LinesOf(after.lines, c.stage.id) == c.dishes <==> Piled(Since(st.log, c.stage.since), c.stage.id) == [])
      && forall o: Id :: o != c.stage.id ==> LinesOf(after.lines, o) == LinesOf(st.lines, o)
  {
    var st := Run(START, steps);
    var c := st.calls[call];
    RunKeeps(steps);
    PiledSince(st.log, c.stage.since, c.stage.id);
    forall o: Id ensures LinesOf(st.lines + AsLines(c.stage.id, c.dishes), o) == LinesOf(st.lines, o) + (if o == c.stage.id then c.dishes else []) {
      LinesConcat(st.lines, AsLines(c.stage.id, c.dishes), o);
      LinesAdded(c.stage.id, c.dishes, o);
    }
  }

  /** A save that fails leaves the row as it stands: empty, unless others have saved meanwhile. */
  lemma FailedSaveLosesTheLines(steps: seq<Step>, call: Id)
    requires var st := Run(START, steps); call in st.calls && st.calls[call].stage.Saving?
    ensures var st := Run(START, steps);
      var c := st.calls[call];
      LinesOf(Next(st, Save(call, true)).lines, c.stage.id) == Piled(Since(st.log, c.stage.since), c.stage.id)
  {
    var st := Run(START, steps);
    RunKeeps(steps);
    PiledSince(st.log, st.calls[call].stage.since, st.calls[call].stage.id);
  }

  // ----- Runs that mix -----

  lemma Extend(st: State, steps: seq<Step>, step: Step)
    ensures Run(st, steps + [step]) == Next(Run(st, steps), step)
  {
    assert (steps + [step])[..|steps|] == steps;
  }

  /** Two edits of one pre-order: both find it, both clear it, both save. */
  function TwoEdits(first: Id, second: Id, ticketId: Id, theirs: seq<Dish>, mine: seq<Dish>): seq<Step> {
    [Find(first, ticketId, theirs)] + [Find(second, ticketId, mine)] + [Clear(first)] + [Clear(second)]
    + [Save(first, false)] + [Save(second, false)]
  }

  lemma EditSteps(st: State, first: Id, second: Id, ticketId: Id, theirs: seq<Dish>, mine: seq<Dish>)
    requires RowsOk(st) && ticketId in st.tickets && first !in st.calls && second !in st.calls && first != second
    ensures var id := FindTicket(st.tickets, ticketId).value;
      var found := Next(Next(st, Find(first, ticketId, theirs)), Find(second, ticketId, mine));
      var cleared := Next(Next(found, Clear(first)), Clear(second));
      var n := Next(Next(cleared, Save(first, false)), Save(second, false));
      n.log == st.log + [Cleared(id)] + [Cleared(id)] + [Saved(id, theirs)] + [Saved(id, mine)]
  {
  }

  /** From every reached state, for every ticket with a pre-order: two edits at once leave both sets of lines. */
  lemma TwoEditsCanMix(steps: seq<Step>, first: Id, second: Id, ticketId: Id, theirs: seq<Dish>, mine: seq<Dish>)
    requires var st := Run(START, steps);
      ticketId in st.tickets && first !in st.calls && second !in st.calls && first != second
    ensures var st := Run(START, steps);
      var id := FindTicket(st.tickets, ticketId).value;
      LinesOf(Run(START, steps + TwoEdits(first, second, ticketId, theirs, mine)).lines, id) == theirs + mine
  {
    var st := Run(START, steps);
    var id := FindTicket(st.tickets, ticketId).value;
    var all := steps + TwoEdits(first, second, ticketId, theirs, mine);
    RunKeeps(steps);
    RunKeeps(all);
    EditSteps(st, first, second, ticketId, theirs, mine);
    SixMore(steps, Find(first, ticketId, theirs), Find(second, ticketId, mine), Clear(first), Clear(second), Save(first, false), Save(second, false));
    hide Next, Run;
    FourEntries(st.log, id, theirs, mine);
  }

  lemma SixMore(steps: seq<Step>, a: Step, b: Step, c: Step, d: Step, e: Step, f: Step)
    ensures Run(START, steps + ([a] + [b] + [c] + [d] + [e] + [f]))
      == Next(Next(Next(Next(Next(Next(Run(START, steps), a), b), c), d), e), f)
  {
    hide Next;
    Extend(START, steps, a);
    Extend(START, steps + [a], b);
    Extend(START, steps + [a] + [b], c);
    Extend(START, steps + [a] + [b] + [c], d);
    Extend(START, steps + [a] + [b] + [c] + [d], e);
    Extend(START, steps + [a] + [b] + [c] + [d] + [e], f);
    hide Run;
    assert steps + ([a] + [b] + [c] + [d] + [e] + [f]) == steps + [a] + [b] + [c] + [d] + [e] + [f];
  }

  lemma FourEntries(log: seq<Event>, id: Id, theirs: seq<Dish>, mine: seq<Dish>)
    ensures Piled(log + [Cleared(id)] + [Cleared(id)] + [Saved(id, theirs)] + [Saved(id, mine)], id) == theirs + mine
  {
    var twice := log + [Cleared(id)] + [Cleared(id)];
    PiledSnoc(log + [Cleared(id)], Cleared(id), id);
    PiledSnoc(twice, Saved(id, theirs), id);
    PiledSnoc(twice + [Saved(id, theirs)], Saved(id, mine), id);
    assert [] + theirs == theirs;
  }
}
