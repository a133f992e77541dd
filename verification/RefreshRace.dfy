/** Refresh-token rotation, one database command a step. refresh() reads the row, checks it, saves it as
    revoked and then inserts the next token; any number of calls and logouts interleave. */
module RefreshRace {
  import opened Common

  /** A refresh_tokens row; its id is its position, `chain` the first token of its rotation chain. */
  datatype Row = Row(chain: Id, parent: Option<Id>, revoked: bool)

  /** A refresh() call that has read its row unrevoked, and then one that has saved it. */
  datatype Caller = Read(tokenId: Id) | Revoked(tokenId: Id)

  /** `used` lists the tokens whose rotation was saved, in order (history only). */
  datatype State = State(rows: seq<Row>, callers: map<Id, Caller>, used: seq<Id>)

  const START := State([], map[], [])

  datatype Step =
    | Issue                                         // register(), login() or acceptInvite()
    | Look(call: Id, tokenId: Id, passes: bool)     // findOne; the hash, expiry and account checks
    | Save(call: Id)
    | Rotate(call: Id)
    | Logout(tokenId: Id)
    | Vanish(call: Id)

  function Next(st: State, step: Step): State {
    match step
    case Issue => st.(rows := st.rows + [Row(|st.rows|, None, false)])
    case Look(call, t, passes) =>
      if call in st.callers || t >= |st.rows| || st.rows[t].revoked || !passes then st
      else st.(callers := st.callers[call := Read(t)])
    case Save(call) =>
      if call !in st.callers || !st.callers[call].Read? || st.callers[call].tokenId >= |st.rows| then st
      else
        var t := st.callers[call].tokenId;
        State(st.rows[t := st.rows[t].(revoked := true)], st.callers[call := Revoked(t)], st.used + [t])
    case Rotate(call) =>
      if call !in st.callers || !st.callers[call].Revoked? || st.callers[call].tokenId >= |st.rows| then st
      else
        var t := st.callers[call].tokenId;
        st.(rows := st.rows + [Row(st.rows[t].chain, Some(t), false)], callers := st.callers - {call})
    case Logout(t) => if t >= |st.rows| then st else st.(rows := st.rows[t := st.rows[t].(revoked := true)])
    case Vanish(call) => st.(callers := st.callers - {call})
  }

  function Run(st: State, steps: seq<Step>): State
    decreases |steps|
  {
    if steps == [] then st else Next(Run(st, steps[..|steps| - 1]), steps[|steps| - 1])
  }

  // ----- When a token is used twice -----

  ghost predicate Twice(used: seq<Id>, t: Id) {
    exists a, b :: 0 <= a < b < |used| && used[a] == used[b] == t
  }

  predicate Holds(st: State, call: Id, t: Id) {
    call in st.callers && st.callers[call] == Read(t)
  }

  /** Callers name existing rows, and a used token is revoked. */
  ghost predicate Sound(st: State) {
    && (forall c :: c in st.callers ==> st.callers[c].tokenId < |st.rows|)
    && (forall t :: t in st.used ==> t < |st.rows| && st.rows[t].revoked)
  }

  lemma NextKeepsSound(st: State, step: Step)
    requires Sound(st)
    ensures Sound(Next(st, step))
  {
  }

  lemma {:induction false} RunKeepsSound(steps: seq<Step>)
    ensures Sound(Run(START, steps))
    decreases |steps|
  {
    if steps != [] {
      RunKeepsSound(steps[..|steps| - 1]);
      NextKeepsSound(Run(START, steps[..|steps| - 1]), steps[|steps| - 1]);
    }
  }

  lemma TwiceSnoc(used: seq<Id>, u: Id, t: Id)
    ensures Twice(used + [u], t) <==> Twice(used, t) || (u == t && t in used)
  {
    if Twice(used, t) {
      var a, b :| 0 <= a < b < |used| && used[a] == used[b] == t;
      assert (used + [u])[a] == (used + [u])[b];
    }
    if u == t && t in used {
      var a :| 0 <= a < |used| && used[a] == t;
      assert (used + [u])[a] == (used + [u])[|used|];
    }
  }

  /** Both calls have read the token unrevoked when the first saves, at `j`; the second is still to save. */
  ghost predicate FirstOfTwo(steps: seq<Step>, j: nat, first: Id, second: Id, t: Id) {
    && j < |steps| && first != second && steps[j] == Save(first)
    && Holds(Run(START, steps[..j]), first, t) && Holds(Run(START, steps[..j]), second, t)
    && forall x :: j <= x < |steps| ==> steps[x] != Save(second) && steps[x] != Vanish(second)
  }

  /** The second saves at `k`. */
  ghost predicate BothSave(steps: seq<Step>, j: nat, k: nat, first: Id, second: Id, t: Id) {
    k < |steps| && steps[k] == Save(second) && FirstOfTwo(steps[..k], j, first, second, t)
  }

  /** A call that still holds its reading of a token used by now held it before; if the token was not
      used then, another call that held it has just saved it. */
  lemma StaleStep(st: State, step: Step, second: Id, t: Id)
    requires Sound(st) && Holds(Next(st, step), second, t) && t in Next(st, step).used
    ensures Holds(st, second, t) && step != Save(second) && step != Vanish(second)
    ensures t in st.used || (step.Save? && step.call != second && Holds(st, step.call, t))
  {
  }

  lemma FirstOfTwoExtends(steps: seq<Step>, j: nat, first: Id, second: Id, t: Id)
    requires steps != [] && steps[|steps| - 1] != Save(second) && steps[|steps| - 1] != Vanish(second)
    requires FirstOfTwo(steps[..|steps| - 1], j, first, second, t)
    ensures FirstOfTwo(steps, j, first, second, t)
  {
    hide Run, Holds;
    assert steps[..|steps| - 1][..j] == steps[..j];
  }

  lemma {:induction false} StaleReading(steps: seq<Step>, second: Id, t: Id)
    requires Holds(Run(START, steps), second, t) && t in Run(START, steps).used
    ensures exists j: nat, first: Id :: FirstOfTwo(steps, j, first, second, t)
    decreases |steps|
  {
    var most, last := steps[..|steps| - 1], steps[|steps| - 1];
    RunKeepsSound(most);
    StaleStep(Run(START, most), last, second, t);
    hide Next, Holds, Sound;
    if t in Run(START, most).used {
      StaleReading(most, second, t);
      var j: nat, first: Id :| FirstOfTwo(most, j, first, second, t);
      FirstOfTwoExtends(steps, j, first, second, t);
    } else {
      assert FirstOfTwo(steps, |most|, last.call, second, t);
    }
  }

  /** The step uses the token, which has been used before. */
  predicate UsesAgain(st: State, step: Step, t: Id) {
    step.Save? && Holds(st, step.call, t) && t in st.used
  }

  lemma UseStep(st: State, step: Step, t: Id)
    requires Sound(st)
    ensures Twice(Next(st, step).used, t) <==> Twice(st.used, t) || UsesAgain(st, step, t)
  {
    if step.Save? && step.call in st.callers && st.callers[step.call].Read? { TwiceSnoc(st.used, st.callers[step.call].tokenId, t); }
  }

  ghost predicate AgainAt(steps: seq<Step>, k: nat, t: Id)
    requires k < |steps|
  {
    UsesAgain(Run(START, steps[..k]), steps[k], t)
  }

  lemma AgainPrefix(steps: seq<Step>, t: Id)
    requires steps != []
    ensures var most := steps[..|steps| - 1];
      (exists k :: 0 <= k < |steps| && AgainAt(steps, k, t))
      <==> (exists k :: 0 <= k < |most| && AgainAt(most, k, t)) || AgainAt(steps, |steps| - 1, t)
  {
    var most := steps[..|steps| - 1];
    forall k | 0 <= k < |most| ensures AgainAt(most, k, t) <==> AgainAt(steps, k, t) { assert most[..k] == steps[..k]; }
  }

  lemma {:induction false} TwiceMeansAgain(steps: seq<Step>, t: Id)
    ensures Twice(Run(START, steps).used, t) <==> exists k :: 0 <= k < |steps| && AgainAt(steps, k, t)
    decreases |steps|
  {
    if steps != [] {
      var most := steps[..|steps| - 1];
      TwiceMeansAgain(most, t);
      RunKeepsSound(most);
      AgainPrefix(steps, t);
      UseStep(Run(START, most), steps[|steps| - 1], t);
    }
  }

  lemma {:induction false} HeldUntilSaved(steps: seq<Step>, j: nat, call: Id, t: Id)
    requires j <= |steps| && Holds(Run(START, steps[..j]), call, t)
    requires forall x :: j <= x < |steps| ==> steps[x] != Save(call) && steps[x] != Vanish(call)
    ensures Holds(Run(START, steps), call, t)
    decreases |steps|
  {
    if j == |steps| {
      assert steps[..j] == steps;
    } else {
      assert steps[..|steps| - 1][..j] == steps[..j];
      HeldUntilSaved(steps[..|steps| - 1], j, call, t);
    }
  }

  lemma {:induction false} UsedStays(steps: seq<Step>, j: nat, t: Id)
    requires j <= |steps| && t in Run(START, steps[..j]).used
    ensures t in Run(START, steps).used
    decreases |steps|
  {
    if j == |steps| {
      assert steps[..j] == steps;
    } else {
      assert steps[..|steps| - 1][..j] == steps[..j];
      UsedStays(steps[..|steps| - 1], j, t);
    }
  }

  lemma BothSavedIsAgain(steps: seq<Step>, j: nat, k: nat, first: Id, second: Id, t: Id)
    requires BothSave(steps, j, k, first, second, t)
    ensures AgainAt(steps, k, t)
  {
    var before := steps[..k];
    assert before[..j + 1][..j] == before[..j];
    RunKeepsSound(before[..j]);
    assert t in Run(START, before[..j + 1]).used;
    UsedStays(before, j + 1, t);
    HeldUntilSaved(before, j, second, t);
  }

  /** In every interleaving a refresh token is used twice if and only if two calls have read it
      unrevoked before either saved, and both have saved. */
  lemma UsedTwiceExactly(steps: seq<Step>, t: Id)
    ensures Twice(Run(START, steps).used, t)
      <==> exists j: nat, k: nat, first: Id, second: Id :: BothSave(steps, j, k, first, second, t)
  {
    TwiceMeansAgain(steps, t);
    if k: nat :| k < |steps| && AgainAt(steps, k, t) {
      StaleReading(steps[..k], steps[k].call, t);
      var j: nat, first: Id :| FirstOfTwo(steps[..k], j, first, steps[k].call, t);
      assert BothSave(steps, j, k, first, steps[k].call, t);
    }
    if j: nat, k: nat, first: Id, second: Id :| BothSave(steps, j, k, first, second, t) {
      BothSavedIsAgain(steps, j, k, first, second, t);
    }
  }

  // ----- A chain forks only when one of its tokens is used twice -----

  predicate InChain(st: State, k: Id, chain: Id) {
    k < |st.rows| && st.rows[k].chain == chain
  }

  predicate ChildOf(st: State, k: Id, t: Id) {
    k < |st.rows| && st.rows[k].parent == Some(t)
  }

  predicate Rotating(st: State, call: Id, t: Id) {
    call in st.callers && st.callers[call] == Revoked(t)
  }

  /** Chains start at an older row, and a next token belongs to its parent's chain. */
  ghost predicate ChainsOk(st: State) {
    && (forall k: Id :: k < |st.rows| ==> st.rows[k].chain <= k)
    && (forall k: Id, t: Id :: ChildOf(st, k, t) ==> t < |st.rows| && st.rows[k].chain == st.rows[t].chain)
  }

  /** Each use of a token of the chain leads to one next token at most, already there or on its way. */
  ghost predicate OneNext(st: State, chain: Id) {
    && (forall k: Id, t: Id :: ChildOf(st, k, t) ==> t in st.used)
    && (forall c: Id, t: Id :: Rotating(st, c, t) ==> t in st.used)
    && (forall a: Id, b: Id, t: Id :: InChain(st, t, chain) && ChildOf(st, a, t) && ChildOf(st, b, t) ==> a == b)
    && (forall a: Id, b: Id, t: Id :: InChain(st, t, chain) && Rotating(st, a, t) && Rotating(st, b, t) ==> a == b)
    && (forall k: Id, c: Id, t: Id :: InChain(st, t, chain) && ChildOf(st, k, t) ==> !Rotating(st, c, t))
  }

  ghost predicate HasNext(st: State, t: Id) {
    exists k: Id :: ChildOf(st, k, t)
  }

  /** Every token of the chain but the newest has been used, and has its next. */
  ghost predicate Linear(st: State, chain: Id) {
    forall a: Id, b: Id :: InChain(st, a, chain) && InChain(st, b, chain) && a < b ==> a in st.used && HasNext(st, a)
  }

  lemma SaveKeepsNext(st: State, call: Id, chain: Id)
    requires Sound(st) && OneNext(st, chain)
    requires forall t: Id :: InChain(st, t, chain) ==> !UsesAgain(st, Save(call), t)
    ensures OneNext(Next(st, Save(call)), chain)
  {
    var n := Next(st, Save(call));
    if n != st {
      var t := st.callers[call].tokenId;
      assert Holds(st, call, t);
      assert forall k: Id, u: Id :: ChildOf(n, k, u) <==> ChildOf(st, k, u);
      assert forall c: Id, u: Id :: Rotating(n, c, u) <==> (Rotating(st, c, u) && c != call) || (c == call && u == t);
      assert forall k: Id :: InChain(n, k, chain) <==> InChain(st, k, chain);
    }
  }

  lemma RotateKeepsNext(st: State, call: Id, chain: Id)
    requires Sound(st) && OneNext(st, chain)
    ensures OneNext(Next(st, Rotate(call)), chain)
  {
    var n := Next(st, Rotate(call));
    if n != st {
      var t := st.callers[call].tokenId;
      assert Rotating(st, call, t) && t < |st.rows|;
      assert forall k: Id, u: Id :: ChildOf(n, k, u) <==> ChildOf(st, k, u) || (k == |st.rows| && u == t);
      assert forall c: Id, u: Id :: Rotating(n, c, u) <==> Rotating(st, c, u) && c != call;
      assert forall u: Id :: u in st.used ==> u < |st.rows| && (InChain(n, u, chain) <==> InChain(st, u, chain));
    }
  }

  lemma QuietKeepsNext(st: State, step: Step, chain: Id)
    requires Sound(st) && OneNext(st, chain) && !step.Save? && !step.Rotate?
    ensures OneNext(Next(st, step), chain)
  {
    var n := Next(st, step);
    assert forall k: Id, u: Id :: ChildOf(n, k, u) <==> ChildOf(st, k, u);
    assert forall c: Id, u: Id :: Rotating(n, c, u) ==> Rotating(st, c, u);
    assert forall u: Id :: u < |st.rows| ==> (InChain(n, u, chain) <==> InChain(st, u, chain));
  }

  lemma NextKeepsChains(st: State, step: Step)
    requires Sound(st) && ChainsOk(st)
    ensures ChainsOk(Next(st, step))
  {
    var n := Next(st, step);
    assert forall k: Id :: k < |st.rows| ==> n.rows[k].chain == st.rows[k].chain && n.rows[k].parent == st.rows[k].parent;
    forall k: Id, t: Id | ChildOf(n, k, t) ensures t < |n.rows| && n.rows[k].chain == n.rows[t].chain {
      if k < |st.rows| { assert ChildOf(st, k, t); }
    }
  }

  /** Rows keep their chain and parent, and used tokens stay used. */
  lemma OlderPair(st: State, n: State, chain: Id, a: Id, b: Id)
    requires Linear(st, chain) && InChain(st, a, chain) && InChain(st, b, chain) && a < b
    requires st.used <= n.used && |st.rows| <= |n.rows| && forall k: Id :: k < |st.rows| ==> n.rows[k].parent == st.rows[k].parent
    ensures a in n.used && HasNext(n, a)
  {
    var k: Id :| ChildOf(st, k, a);
    assert ChildOf(n, k, a);
  }

  /** A token about to be rotated is its chain's newest: a newer one would mean that it already has its next. */
  lemma RotatedIsNewest(st: State, call: Id, t: Id, chain: Id, a: Id)
    requires OneNext(st, chain) && Linear(st, chain) && Rotating(st, call, t) && InChain(st, a, chain)
    requires t < |st.rows| && st.rows[t].chain == chain
    ensures a <= t
  {
    assert InChain(st, t, chain);
    assert !HasNext(st, t);
  }

  lemma RotateKeepsLinear(st: State, call: Id, chain: Id)
    requires Sound(st) && ChainsOk(st) && OneNext(st, chain) && Linear(st, chain)
    ensures Linear(Next(st, Rotate(call)), chain)
  {
    var n := Next(st, Rotate(call));
    if n != st {
      var t := st.callers[call].tokenId;
      assert Rotating(st, call, t) && ChildOf(n, |st.rows|, t);
      forall a: Id, b: Id | InChain(n, a, chain) && InChain(n, b, chain) && a < b ensures a in n.used && HasNext(n, a) {
        assert InChain(st, a, chain);
        if b < |st.rows| {
          assert InChain(st, b, chain);
          OlderPair(st, n, chain, a, b);
        } else if a < t {
          assert InChain(st, t, chain);
          OlderPair(st, n, chain, a, t);
        } else {
          RotatedIsNewest(st, call, t, chain, a);
        }
      }
    }
  }

  lemma QuietKeepsLinear(st: State, step: Step, chain: Id)
    requires Sound(st) && ChainsOk(st) && Linear(st, chain) && !step.Rotate?
    ensures Linear(Next(st, step), chain)
  {
    var n := Next(st, step);
    forall a: Id, b: Id | InChain(n, a, chain) && InChain(n, b, chain) && a < b ensures a in n.used && HasNext(n, a) {
      assert InChain(st, a, chain) && InChain(st, b, chain);
      OlderPair(st, n, chain, a, b);
    }
  }

  lemma ChainStep(st: State, step: Step, chain: Id)
    requires Sound(st) && ChainsOk(st) && OneNext(st, chain) && Linear(st, chain)
    requires forall t: Id :: InChain(st, t, chain) ==> !UsesAgain(st, step, t)
    ensures ChainsOk(Next(st, step)) && OneNext(Next(st, step), chain) && Linear(Next(st, step), chain)
  {
    hide Sound, OneNext, Linear, ChainsOk, InChain, UsesAgain;
    NextKeepsChains(st, step);
    match step
    case Save(call) => SaveKeepsNext(st, call, chain); QuietKeepsLinear(st, step, chain);
    case Rotate(call) => RotateKeepsNext(st, call, chain); RotateKeepsLinear(st, call, chain);
    case _ => QuietKeepsNext(st, step, chain); QuietKeepsLinear(st, step, chain);
  }

  lemma ChainStays(st: State, step: Step, t: Id, chain: Id)
    requires InChain(st, t, chain)
    ensures InChain(Next(st, step), t, chain)
  {
  }

  lemma {:induction false} ChainsStayLinear(steps: seq<Step>, chain: Id)
    requires forall t: Id :: InChain(Run(START, steps), t, chain) ==> !Twice(Run(START, steps).used, t)
    ensures ChainsOk(Run(START, steps)) && OneNext(Run(START, steps), chain) && Linear(Run(START, steps), chain)
    decreases |steps|
  {
    if steps != [] {
      var st, last := Run(START, steps[..|steps| - 1]), steps[|steps| - 1];
      RunKeepsSound(steps[..|steps| - 1]);
      forall t: Id | InChain(st, t, chain) ensures !Twice(st.used, t) && !UsesAgain(st, last, t) {
        ChainStays(st, last, t, chain);
        assert InChain(Run(START, steps), t, chain);
        UseStep(st, last, t);
      }
      ChainsStayLinear(steps[..|steps| - 1], chain);
      hide Next, InChain, Twice, UsesAgain, Sound, ChainsOk, OneNext, Linear;
      ChainStep(st, last, chain);
    }
  }

  lemma LinearHasOneTip(st: State, chain: Id, a: Id, b: Id)
    requires Sound(st) && Linear(st, chain) && InChain(st, a, chain) && InChain(st, b, chain) && a != b
    ensures st.rows[a].revoked || st.rows[b].revoked
  {
  }

  /** In every interleaving: if a chain has two tokens that work, then one of its tokens was used twice,
      which takes two calls that read it unrevoked before either saved. */
  lemma ForksComeFromOverlaps(steps: seq<Step>, a: Id, b: Id)
    requires var st := Run(START, steps);
      && a < |st.rows| && b < |st.rows| && a != b && st.rows[a].chain == st.rows[b].chain
      && !st.rows[a].revoked && !st.rows[b].revoked
    ensures var st := Run(START, steps);
      exists j: nat, k: nat, first: Id, second: Id, t: Id ::
        InChain(st, t, st.rows[a].chain) && BothSave(steps, j, k, first, second, t)
  {
    hide Run, Next, Sound, Linear, Twice, BothSave;
    var st := Run(START, steps);
    var chain := st.rows[a].chain;
    if t: Id :| InChain(st, t, chain) && Twice(st.used, t) {
      UsedTwiceExactly(steps, t);
      var j: nat, k: nat, first: Id, second: Id :| BothSave(steps, j, k, first, second, t);
    } else {
      RunKeepsSound(steps);
      ChainsStayLinear(steps, chain);
      LinearHasOneTip(st, chain, a, b);
    }
  }

  // ----- Runs that fork -----

  lemma Extend(st: State, steps: seq<Step>, step: Step)
    ensures Run(st, steps + [step]) == Next(Run(st, steps), step)
  {
    assert (steps + [step])[..|steps|] == steps;
  }

  /** Two calls with one token: both look, both save, both rotate. */
  function Fork(first: Id, second: Id, t: Id): seq<Step> {
    [Look(first, t, true)] + [Look(second, t, true)] + [Save(first)] + [Save(second)] + [Rotate(first)] + [Rotate(second)]
  }

  /** From every state, a working token and two calls make two working tokens of one chain. */
  lemma TwoCallsFork(st: State, first: Id, second: Id, t: Id)
    requires t < |st.rows| && !st.rows[t].revoked && first !in st.callers && second !in st.callers && first != second
    ensures var n := Run(st, Fork(first, second, t));
      && |n.rows| == |st.rows| + 2 && n.rows[|st.rows|] == n.rows[|st.rows| + 1] == Row(st.rows[t].chain, Some(t), false)
  {
    var steps := Fork(first, second, t);
    assert Run(st, []) == st && [] + [steps[0]] == [steps[0]];
    Extend(st, [], steps[0]);
    Extend(st, [steps[0]], steps[1]);
    Extend(st, [steps[0]] + [steps[1]], steps[2]);
    Extend(st, [steps[0]] + [steps[1]] + [steps[2]], steps[3]);
    Extend(st, [steps[0]] + [steps[1]] + [steps[2]] + [steps[3]], steps[4]);
    Extend(st, [steps[0]] + [steps[1]] + [steps[2]] + [steps[3]] + [steps[4]], steps[5]);
    ForkSteps(st, first, second, t);
  }

  lemma ForkSteps(st: State, first: Id, second: Id, t: Id)
    requires t < |st.rows| && !st.rows[t].revoked && first !in st.callers && second !in st.callers && first != second
    ensures var looked := Next(Next(st, Look(first, t, true)), Look(second, t, true));
      var saved := Next(Next(looked, Save(first)), Save(second));
      var n := Next(Next(saved, Rotate(first)), Rotate(second));
      && |n.rows| == |st.rows| + 2 && n.rows[|st.rows|] == n.rows[|st.rows| + 1] == Row(st.rows[t].chain, Some(t), false)
  {
  }

  // ----- When a dead chain stays dead -----

  /** No token of the chain works. */
  ghost predicate Dead(st: State, chain: Id) {
    forall t: Id :: InChain(st, t, chain) ==> st.rows[t].revoked
  }

  /** Some refresh() call has read or saved a token of the chain. */
  ghost predicate InFlight(st: State, chain: Id) {
    exists c: Id :: c in st.callers && InChain(st, st.callers[c].tokenId, chain)
  }

  lemma DeadStep(st: State, step: Step, chain: Id)
    requires Sound(st) && chain < |st.rows| && Dead(st, chain) && !InFlight(st, chain)
    ensures var n := Next(st, step); chain < |n.rows| && Dead(n, chain) && !InFlight(n, chain)
  {
    var n := Next(st, step);
    forall c: Id | c in n.callers ensures !InChain(n, n.callers[c].tokenId, chain) {
      if c in st.callers { assert !InChain(st, st.callers[c].tokenId, chain); }
    }
    forall t: Id | InChain(n, t, chain) ensures n.rows[t].revoked {
      if t < |st.rows| { assert InChain(st, t, chain); }
    }
  }

  lemma {:induction false} DeadRun(st: State, steps: seq<Step>, chain: Id)
    requires Sound(st) && chain < |st.rows| && Dead(st, chain) && !InFlight(st, chain)
    ensures var n := Run(st, steps); Sound(n) && chain < |n.rows| && Dead(n, chain) && !InFlight(n, chain)
    decreases |steps|
  {
    if steps != [] {
      DeadRun(st, steps[..|steps| - 1], chain);
      NextKeepsSound(Run(st, steps[..|steps| - 1]), steps[|steps| - 1]);
      DeadStep(Run(st, steps[..|steps| - 1]), steps[|steps| - 1], chain);
    }
  }

  /** The call goes on: it saves, if it has not, and rotates. */
  lemma FlightLands(st: State, call: Id)
    requires Sound(st) && call in st.callers
    ensures var n := Run(st, [Save(call)] + [Rotate(call)]);
      |n.rows| == |st.rows| + 1 && n.rows[|st.rows|] == Row(st.rows[st.callers[call].tokenId].chain, Some(st.callers[call].tokenId), false)
  {
    assert Run(st, []) == st && [] + [Save(call)] == [Save(call)];
    Extend(st, [], Save(call));
    Extend(st, [Save(call)], Rotate(call));
    NextKeepsSound(st, Save(call));
  }

  /** A chain without a working token, after a logout say, never has one again if and only if no refresh()
      call that has read one of its tokens is in flight: such a call may still rotate it. */
  lemma StaysDeadExactly(st: State, chain: Id)
    requires Sound(st) && chain < |st.rows| && Dead(st, chain)
    ensures (forall steps :: Dead(Run(st, steps), chain)) <==> !InFlight(st, chain)
  {
    if InFlight(st, chain) {
      var c: Id :| c in st.callers && InChain(st, st.callers[c].tokenId, chain);
      var steps := [Save(c)] + [Rotate(c)];
      FlightLands(st, c);
      assert InChain(Run(st, steps), |st.rows|, chain) && !Dead(Run(st, steps), chain);
    } else {
      forall steps ensures Dead(Run(st, steps), chain) { DeadRun(st, steps, chain); }
    }
  }
}
