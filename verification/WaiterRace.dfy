/** createWaiterOrder command by command: any number of calls interleave, and only the unique
    index on client_request_id keeps a double tap from becoming two orders. */
module WaiterRace {
  import opened Common
  import opened FoodOrders
  import opened FoodRuns

  /** Where a call stands. `seen` are the lines it answers with. */
  datatype Stage =
    | Looking
    | Inserting
    | Refetching
    | Reading(id: Id)
    | SavingLines(id: Id)
    | Finished(id: Id, created: bool, seen: seq<Dish>)
    | LostLines(id: Id)
    | Failed

  datatype Call = Call(key: Option<Id>, dishes: seq<Dish>, stage: Stage)

  /** `keys` is the client_request_id column, row by row; `maker` is the call that inserted the row (history). */
  datatype State = State(keys: seq<Option<Id>>, lines: seq<Line>, calls: map<Id, Call>, maker: seq<Id>)

  const NOTHING := State([], [], map[], [])

  function FindKey(keys: seq<Option<Id>>, key: Id): (r: Option<nat>)
    ensures r.Some? ==> r.value < |keys| && keys[r.value] == Some(key)
    ensures r.None? ==> forall k :: 0 <= k < |keys| ==> keys[k] != Some(key)
  {
    if keys == [] then None
    else if keys[|keys| - 1] == Some(key) then Some(|keys| - 1)
    else FindKey(keys[..|keys| - 1], key)
  }

  /** Begin carries what the call will resolve its items to; Checks(false) is any failed check. */
  datatype Step =
    | Begin(call: Id, key: Option<Id>, dishes: seq<Dish>)
    | Look(call: Id)
    | Check(call: Id, passes: bool)
    | Insert(call: Id, fails: bool)
    | Refetch(call: Id)
    | Read(call: Id)
    | SaveLines(call: Id, fails: bool)

  function Moved(st: State, call: Id, stage: Stage): State
    requires call in st.calls
  {
    st.(calls := st.calls[call := st.calls[call].(stage := stage)])
  }

  function Next(st: State, step: Step): State {
    if step.Begin? then
      if step.call in st.calls then st else st.(calls := st.calls[step.call := Call(step.key, step.dishes, Looking)])
    else if step.call !in st.calls then st
    else
      var call, c := step.call, st.calls[step.call];
      match (step, c.stage)
      case (Look(_), Looking) =>
        if c.key.Some? && FindKey(st.keys, c.key.value).Some?
        then Moved(st, call, Reading(FindKey(st.keys, c.key.value).value)) else Moved(st, call, Inserting)
      case (Check(_, passes), Inserting) => if passes then st else Moved(st, call, Failed)
      case (Insert(_, fails), Inserting) =>
        if fails || (c.key.Some? && FindKey(st.keys, c.key.value).Some?)
        then Moved(st, call, if c.key.Some? then Refetching else Failed)
        else Moved(st, call, SavingLines(|st.keys|)).(keys := st.keys + [c.key], maker := st.maker + [call])
      case (Refetch(_), Refetching) =>
        if c.key.Some? && FindKey(st.keys, c.key.value).Some?
        then Moved(st, call, Reading(FindKey(st.keys, c.key.value).value)) else Moved(st, call, Failed)
      case (Read(_), Reading(id)) => Moved(st, call, Finished(id, false, LinesOf(st.lines, id)))
      case (SaveLines(_, fails), SavingLines(id)) =>
        if fails then Moved(st, call, LostLines(id))
        else Moved(st, call, Finished(id, true, c.dishes)).(lines := st.lines + AsLines(id, c.dishes))
      case _ => st
  }

  function Run(steps: seq<Step>): State
    decreases |steps|
  {
    if steps == [] then NOTHING else Next(Run(steps[..|steps| - 1]), steps[|steps| - 1])
  }

  /** A stage that holds the row the call itself inserted. */
  predicate Made(stage: Stage, id: Id) {
    stage == SavingLines(id) || stage == LostLines(id) || (stage.Finished? && stage.created && stage.id == id)
  }

  /** The lines of a row: the maker's dishes once it has finished, and none before. */
  function Expected(st: State, id: Id): seq<Dish>
    requires id < |st.maker| && st.maker[id] in st.calls
  {
    if st.calls[st.maker[id]].stage.Finished? then st.calls[st.maker[id]].dishes else []
  }

  ghost predicate RowsOk(st: State) {
    && |st.maker| == |st.keys|
    && (forall a, b :: 0 <= a < b < |st.keys| && st.keys[a].Some? ==> st.keys[a] != st.keys[b])
    && (forall l :: l in st.lines ==> l.foodOrderId < |st.keys|)
    && forall id :: 0 <= id < |st.keys| ==>
         && st.maker[id] in st.calls && st.calls[st.maker[id]].key == st.keys[id]
         && Made(st.calls[st.maker[id]].stage, id)
         && LinesOf(st.lines, id) == Expected(st, id)
  }

  ghost predicate CallOk(st: State, call: Id, c: Call) {
    match c.stage
    case Reading(id) => id < |st.keys| && c.key.Some? && st.keys[id] == c.key
    case SavingLines(id) => id < |st.keys| == |st.maker| && st.maker[id] == call
    case LostLines(id) => id < |st.keys| == |st.maker| && st.maker[id] == call
    case Finished(id, created, seen) =>
      && id < |st.keys| == |st.maker| && st.keys[id] == c.key && (created ==> st.maker[id] == call && seen == c.dishes)
      && (!created ==>
            && c.key.Some? && st.maker[id] in st.calls
            && (seen == [] || (st.calls[st.maker[id]].stage.Finished? && seen == st.calls[st.maker[id]].dishes)))
    case _ => true
  }

  ghost predicate Inv(st: State) {
    && RowsOk(st)
    && forall call :: call in st.calls ==> CallOk(st, call, st.calls[call])
  }

  /** Moving a call among stages that hold no row of its own. */
  lemma MoveKeeps(st: State, call: Id, stage: Stage)
    requires Inv(st) && call in st.calls && (forall id :: !Made(st.calls[call].stage, id))
    requires CallOk(Moved(st, call, stage), call, st.calls[call].(stage := stage))
    ensures Inv(Moved(st, call, stage))
  {
    var n := Moved(st, call, stage);
    forall id | 0 <= id < |st.keys| ensures st.maker[id] != call && Expected(n, id) == Expected(st, id) {
      assert Made(st.calls[st.maker[id]].stage, id);
    }
    forall c | c in n.calls && c != call ensures CallOk(n, c, n.calls[c]) {
      assert CallOk(st, c, st.calls[c]);
    }
  }

  function Inserted(st: State, call: Id): State
    requires call in st.calls
  {
    Moved(st, call, SavingLines(|st.keys|)).(keys := st.keys + [st.calls[call].key], maker := st.maker + [call])
  }

  lemma InsertedRows(st: State, call: Id)
    requires Inv(st) && call in st.calls && st.calls[call].stage == Inserting
    requires st.calls[call].key.Some? ==> FindKey(st.keys, st.calls[call].key.value).None?
    ensures RowsOk(Inserted(st, call))
  {
    var n := Inserted(st, call);
    var id := |st.keys|;
    NoLines(st.lines, id);
    forall k | 0 <= k < id ensures st.maker[k] != call && Expected(n, k) == Expected(st, k) && n.maker[k] == st.maker[k] {
      assert Made(st.calls[st.maker[k]].stage, k);
    }
  }

  lemma InsertKeeps(st: State, call: Id)
    requires Inv(st) && call in st.calls && st.calls[call].stage == Inserting
    requires st.calls[call].key.Some? ==> FindKey(st.keys, st.calls[call].key.value).None?
    ensures Inv(Inserted(st, call))
  {
    InsertedRows(st, call);
    var n := Inserted(st, call);
    forall c | c in n.calls ensures CallOk(n, c, n.calls[c]) {
      if c != call { assert CallOk(st, c, st.calls[c]); }
    }
  }

  lemma SaveKeeps(st: State, call: Id, fails: bool)
    requires Inv(st) && call in st.calls && st.calls[call].stage.SavingLines?
    ensures Inv(Next(st, SaveLines(call, fails)))
  {
    var n := Next(st, SaveLines(call, fails));
    var c := st.calls[call];
    var mine := c.stage.id;
    assert CallOk(st, call, c);
    if fails {
      assert n == Moved(st, call, LostLines(mine));
    } else {
      assert n == Moved(st, call, Finished(mine, true, c.dishes)).(lines := st.lines + AsLines(mine, c.dishes));
    }
    SavedRows(st, n, call);
    forall other | other in n.calls ensures CallOk(n, other, n.calls[other]) {
      assert CallOk(st, other, st.calls[other]);
    }
  }

  lemma SavedRows(st: State, n: State, call: Id)
    requires RowsOk(st) && call in st.calls && st.calls[call].stage.SavingLines?
    requires var id := st.calls[call].stage.id; id < |st.keys| && st.maker[id] == call
    requires var c := st.calls[call];
      || n == Moved(st, call, LostLines(c.stage.id))
      || n == Moved(st, call, Finished(c.stage.id, true, c.dishes)).(lines := st.lines + AsLines(c.stage.id, c.dishes))
    ensures RowsOk(n)
  {
    var mine := st.calls[call].stage.id;
    forall id | 0 <= id < |st.keys|
      ensures Made(n.calls[n.maker[id]].stage, id) && LinesOf(n.lines, id) == Expected(n, id)
    {
      assert Made(st.calls[st.maker[id]].stage, id) && LinesOf(st.lines, id) == Expected(st, id);
      LinesSaved(st.lines, mine, st.calls[call].dishes, id);
    }
  }

  lemma LinesSaved(lines: seq<Line>, mine: Id, dishes: seq<Dish>, id: Id)
    ensures LinesOf(lines + AsLines(mine, dishes), id) == LinesOf(lines, id) + (if id == mine then dishes else [])
  {
    LinesConcat(lines, AsLines(mine, dishes), id);
    LinesAdded(mine, dishes, id);
  }

  lemma NextKeeps(st: State, step: Step)
    requires Inv(st)
    ensures Inv(Next(st, step)) && st.keys <= Next(st, step).keys
  {
    if step.call in st.calls {
      var call, c := step.call, st.calls[step.call];
      assert CallOk(st, call, c);
      hide RowsOk, Expected, LinesOf, AsLines;
      match step
      case Look(_) => if c.stage == Looking { MoveKeeps(st, call, Next(st, step).calls[call].stage); }
      case Check(_, passes) => if c.stage == Inserting && !passes { MoveKeeps(st, call, Failed); }
      case Insert(_, fails) => if c.stage == Inserting { AnyInsertKeeps(st, call, fails); }
      case Refetch(_) => if c.stage == Refetching { MoveKeeps(st, call, Next(st, step).calls[call].stage); }
      case Read(_) => if c.stage.Reading? { ReadKeeps(st, call); }
      case SaveLines(_, fails) => if c.stage.SavingLines? { SaveKeeps(st, call, fails); }
      case _ =>
    } else if step.Begin? {
      BeginKeeps(st, step);
    }
  }

  lemma AnyInsertKeeps(st: State, call: Id, fails: bool)
    requires Inv(st) && call in st.calls && st.calls[call].stage == Inserting
    ensures Inv(Next(st, Insert(call, fails))) && st.keys <= Next(st, Insert(call, fails)).keys
  {
    hide RowsOk, LinesOf;
    var c := st.calls[call];
    if !fails && (c.key.Some? ==> FindKey(st.keys, c.key.value).None?) { InsertKeeps(st, call); }
    else { MoveKeeps(st, call, if c.key.Some? then Refetching else Failed); }
  }

  lemma ReadKeeps(st: State, call: Id)
    requires Inv(st) && call in st.calls && st.calls[call].stage.Reading?
    ensures Inv(Next(st, Read(call)))
  {
    var id := st.calls[call].stage.id;
    assert CallOk(st, call, st.calls[call]);
    ReadsExpected(st, id);
    hide RowsOk, LinesOf;
    MoveKeeps(st, call, Finished(id, false, LinesOf(st.lines, id)));
  }

  lemma ReadsExpected(st: State, id: Id)
    requires RowsOk(st) && id < |st.keys|
    ensures id < |st.maker| && st.maker[id] in st.calls && LinesOf(st.lines, id) == Expected(st, id)
  {
  }

  lemma BeginKeeps(st: State, step: Step)
    requires Inv(st) && step.Begin? && step.call !in st.calls
    ensures Inv(Next(st, step))
  {
    var n := Next(st, step);
    forall id | 0 <= id < |st.keys| ensures Expected(n, id) == Expected(st, id) {}
    forall c | c in n.calls ensures CallOk(n, c, n.calls[c]) {
      if c != step.call { assert CallOk(st, c, st.calls[c]); }
    }
  }

  lemma {:induction false} RunKeeps(steps: seq<Step>)
    ensures Inv(Run(steps))
    decreases |steps|
  {
    if steps != [] {
      RunKeeps(steps[..|steps| - 1]);
      NextKeeps(Run(steps[..|steps| - 1]), steps[|steps| - 1]);
    }
  }

  /** A double tap is one order: in every interleaving there is at most one row a key, every
      completing call of the key answers with that row's id, and exactly one call made it. */
  lemma KeyedCallsAgree(steps: seq<Step>, a: Id, b: Id)
    requires var calls := Run(steps).calls;
      a in calls && b in calls && calls[a].stage.Finished? && calls[b].stage.Finished? && calls[a].key == calls[b].key && calls[a].key.Some?
    ensures var st := Run(steps);
      var id := st.calls[a].stage.id;
      && st.calls[b].stage.id == id && id < |st.keys|
      && (forall k :: 0 <= k < |st.keys| ==> (st.keys[k] == st.calls[a].key <==> k == id))
      && (a != b ==> !(st.calls[a].stage.created && st.calls[b].stage.created))
  {
    RunKeeps(steps);
    var st := Run(steps);
    assert CallOk(st, a, st.calls[a]) && CallOk(st, b, st.calls[b]);
  }

  /** A row's lines are saved once and by its maker only: they are the maker's dishes once it has
      finished and none before. A call that reads the row answers with exactly what stands at that
      moment, so its answer is complete if and only if the maker has finished, or had no dishes. */
  lemma LinesAreTheWinners(steps: seq<Step>, id: nat)
    requires id < |Run(steps).keys|
    ensures var st := Run(steps);
      && |st.maker| == |st.keys| && st.maker[id] in st.calls
      && LinesOf(st.lines, id) == Expected(st, id)
      && forall c :: c in st.calls && st.calls[c].stage == Reading(id) ==>
           && Next(st, Read(c)).calls[c].stage == Finished(id, false, Expected(st, id))
           && (Expected(st, id) == st.calls[st.maker[id]].dishes <==>
                 st.calls[st.maker[id]].stage.Finished? || st.calls[st.maker[id]].dishes == [])
  {
    RunKeeps(steps);
  }

  /** What a call that did not make the row has answered: nothing, or the finished maker's lines. */
  lemma AnswersAreTheWinners(steps: seq<Step>, c: Id)
    requires var calls := Run(steps).calls; c in calls && calls[c].stage.Finished?
    ensures var st := Run(steps);
      var stage := st.calls[c].stage;
      && stage.id < |st.maker| && st.maker[stage.id] in st.calls
      && (stage.seen == [] || (st.calls[st.maker[stage.id]].stage.Finished? && stage.seen == st.calls[st.maker[stage.id]].dishes))
  {
    RunKeeps(steps);
    assert CallOk(Run(steps), c, Run(steps).calls[c]);
  }

  // ----- The incomplete answers that do happen -----

  const DISH := Dish(4, "hoppers", 2, None, 900)

  /** A double tap: the second call reads the row before the first has saved its lines. */
  const DOUBLE_TAP: seq<Step> := [Begin(0, Some(7), [DISH]), Begin(1, Some(7), [DISH]), Look(0), Insert(0, false), Look(1), Read(1)]

  lemma Two(steps: seq<Step>, first: Step, second: Step)
    ensures Run(steps + [first, second]) == Next(Next(Run(steps), first), second)
  {
    assert (steps + [first, second])[..|steps| + 1] == steps + [first];
    assert (steps + [first])[..|steps|] == steps;
  }

  function Tap(stage: Stage): Call {
    Call(Some(7), [DISH], stage)
  }

  lemma BothBegin()
    ensures Next(Next(NOTHING, Begin(0, Some(7), [DISH])), Begin(1, Some(7), [DISH])) == State([], [], map[0 := Tap(Looking), 1 := Tap(Looking)], [])
  {
  }

  lemma FirstInserts()
    ensures Next(Next(State([], [], map[0 := Tap(Looking), 1 := Tap(Looking)], []), Look(0)), Insert(0, false))
      == State([Some(7)], [], map[0 := Tap(SavingLines(0)), 1 := Tap(Looking)], [0])
  {
    assert map[0 := Tap(Looking), 1 := Tap(Looking)][0 := Tap(Inserting)][0 := Tap(SavingLines(0))]
        == map[0 := Tap(SavingLines(0)), 1 := Tap(Looking)];
  }

  lemma SecondReads()
    ensures Next(Next(State([Some(7)], [], map[0 := Tap(SavingLines(0)), 1 := Tap(Looking)], [0]), Look(1)), Read(1)).calls
      == map[0 := Tap(SavingLines(0)), 1 := Tap(Finished(0, false, []))]
  {
    assert FindKey([Some(7)], 7) == Some(0);
    assert map[0 := Tap(SavingLines(0)), 1 := Tap(Looking)][1 := Tap(Reading(0))][1 := Tap(Finished(0, false, []))]
        == map[0 := Tap(SavingLines(0)), 1 := Tap(Finished(0, false, []))];
  }

  lemma SecondTapCanComeBackEmpty()
    ensures Run(DOUBLE_TAP).calls == map[0 := Tap(SavingLines(0)), 1 := Tap(Finished(0, false, []))]
  {
    var s := DOUBLE_TAP;
    Two([], s[0], s[1]);
    Two([s[0], s[1]], s[2], s[3]);
    Two([s[0], s[1], s[2], s[3]], s[4], s[5]);
    assert [] + [s[0], s[1]] == [s[0], s[1]];
    assert [s[0], s[1]] + [s[2], s[3]] == [s[0], s[1], s[2], s[3]] && [s[0], s[1], s[2], s[3]] + [s[4], s[5]] == s;
    BothBegin();
    FirstInserts();
    SecondReads();
  }

  lemma LostStays(st: State, step: Step, id: nat)
    requires Inv(st) && id < |st.keys| && st.calls[st.maker[id]].stage == LostLines(id)
    ensures var n := Next(st, step);
      id < |n.keys| == |n.maker| && n.maker[id] == st.maker[id] && n.keys[id] == st.keys[id]
      && n.maker[id] in n.calls && n.calls[n.maker[id]].stage == LostLines(id)
  {
  }

  lemma {:induction false} LostForGood(steps: seq<Step>, i: nat, id: nat)
    requires i <= |steps| && id < |Run(steps[..i]).keys|
    requires var st := Run(steps[..i]); |st.maker| == |st.keys| && st.maker[id] in st.calls && st.calls[st.maker[id]].stage == LostLines(id)
    ensures var st := Run(steps);
      id < |st.keys| == |st.maker| && st.maker[id] in st.calls && st.calls[st.maker[id]].stage == LostLines(id)
      && st.keys[id] == Run(steps[..i]).keys[id]
    decreases |steps|
  {
    if i == |steps| {
      assert steps[..i] == steps;
    } else {
      var most := steps[..|steps| - 1];
      assert most[..i] == steps[..i];
      LostForGood(most, i, id);
      RunKeeps(most);
      LostStays(Run(most), steps[|steps| - 1], id);
    }
  }

  /** When the save of the lines fails after the row's own save, the order stays empty for good: in every
      later state it has no lines, and every call of its key that completes, now or then, is answered
      with that empty order. */
  lemma LostLinesStayLost(steps: seq<Step>, i: nat, id: nat, c: Id)
    requires i <= |steps| && id < |Run(steps[..i]).keys| && Run(steps[..i]).keys[id].Some?
    requires var st := Run(steps[..i]); |st.maker| == |st.keys| && st.maker[id] in st.calls && st.calls[st.maker[id]].stage == LostLines(id)
    ensures var st := Run(steps);
      && id < |st.keys| && st.keys[id] == Run(steps[..i]).keys[id] && LinesOf(st.lines, id) == []
      && (c in st.calls && st.calls[c].key == st.keys[id] && st.calls[c].stage.Finished? ==>
            st.calls[c].stage == Finished(id, false, []))
  {
    LostForGood(steps, i, id);
    RunKeeps(steps);
    var st := Run(steps);
    ReadsExpected(st, id);
    if c in st.calls { assert CallOk(st, c, st.calls[c]); }
    hide Inv, RowsOk, Run;
  }

  /** Calls without a key never clash: each that completes made a row of its own. */
  lemma UnkeyedCallsNeverClash(steps: seq<Step>, a: Id, b: Id)
    requires var calls := Run(steps).calls;
      a in calls && b in calls && a != b && calls[a].stage.Finished? && calls[b].stage.Finished? && calls[a].key.None?
    ensures var st := Run(steps);
      st.calls[a].stage.created && st.calls[a].stage.id != st.calls[b].stage.id
  {
    RunKeeps(steps);
    var st := Run(steps);
    assert CallOk(st, a, st.calls[a]) && CallOk(st, b, st.calls[b]);
  }
}
