/**
 What a hidden tool loop told the model, call by call (tool_loop.py): which calls ran, which were refused and
 which turned away, what each round cost, and the transcript that makes.
 */
module ToolRounds {
  import opened Basics
  import opened Cuts
  import opened ToolLoop

  /** What becomes of a gateway call: executed; refused because the request is closed or out of tokens; or
      turned away because a new window was asked for together with other calls. */
  datatype Fate = Replied | Refused | TurnedAway

  function Given(c: Call, fate: Fate): Answer {
    match fate
    case Replied => c.reply
    case Refused => c.refusal
    case TurnedAway => c.alone
  }

  /** The tokens spent when call `i` of a round is looked at. */
  function CostBefore(entry: nat, calls: seq<Call>, fates: seq<Fate>, i: nat): nat
    requires i <= |calls| && i <= |fates|
  {
    if i == 0 then entry else CostBefore(entry, calls, fates, i - 1) + AddedTokens(Given(calls[i - 1], fates[i - 1]).size)
  }

  /** Each call's fate, from what was spent by then. */
  ghost predicate Judged(p: Setup, closed: bool, crowded: bool, entry: nat, calls: seq<Call>, fates: seq<Fate>) {
    && |fates| == |calls|
    && forall i :: 0 <= i < |calls| ==>
         var spent := p.budget > 0 && CostBefore(entry, calls, fates, i) >= p.budget;
         && (fates[i] == Refused <==> closed || spent)
         && (fates[i] == TurnedAway <==> crowded && !closed && !spent)
         && (fates[i] == Replied <==> !crowded && !closed && !spent)
  }

  function Items(calls: seq<Call>, fates: seq<Fate>): (r: seq<Item>)
    requires |fates| == |calls|
    ensures |r| == |calls| && forall i :: 0 <= i < |calls| ==> r[i] == Given(calls[i], fates[i]).item
  {
    seq(|calls|, i requires 0 <= i < |calls| => Given(calls[i], fates[i]).item)
  }

  // ---------------------------------------------------------------- one round's calls

  lemma {:induction false} CostsGrow(entry: nat, calls: seq<Call>, fates: seq<Fate>, i: nat, j: nat)
    requires i < j <= |calls| && j <= |fates|
    ensures CostBefore(entry, calls, fates, i) < CostBefore(entry, calls, fates, j)
    decreases j
  {
    hide AddedTokens;
    if i < j - 1 {
      CostsGrow(entry, calls, fates, i, j - 1);
    }
  }

  /** What is spent before a call depends only on the calls before it. */
  lemma {:induction false} CostPrefix(entry: nat, calls: seq<Call>, fates: seq<Fate>, more: seq<Fate>, i: nat)
    requires i <= |fates| && i <= |calls| && fates <= more
    ensures CostBefore(entry, calls, fates, i) == CostBefore(entry, calls, more, i)
    decreases i
  {
    if i > 0 {
      CostPrefix(entry, calls, fates, more, i - 1);
    }
  }

  function FateOf(p: Setup, closed: bool, crowded: bool, cost: nat): Fate {
    if closed || Spent(p, cost) then Refused else if crowded then TurnedAway else Replied
  }

  /** The fates of the first calls, their results and their cost. */
  ghost predicate FatesOk(p: Setup, entry: nat, closed: bool, crowded: bool, calls: seq<Call>, fates: seq<Fate>, b: Batch) {
    && |fates| <= |calls|
    && (forall i :: 0 <= i < |fates| ==> fates[i] == FateOf(p, closed, crowded, CostBefore(entry, calls, fates, i)))
    && b.cost == CostBefore(entry, calls, fates, |fates|)
    && b.results == Items(calls[..|fates|], fates)
  }

  /** The executor calls: one for each call that was replied to, and no other. */
  ghost predicate StartedOk(rounds: nat, entry: nat, calls: seq<Call>, fates: seq<Fate>, b: Batch)
    requires |fates| <= |calls|
  {
    && (forall i :: 0 <= i < |fates| ==>
          (fates[i] == Replied <==> (rounds, CostBefore(entry, calls, fates, i)) in b.started))
    && (forall x :: x in b.started ==> x.0 == rounds && x.1 < b.cost)
  }

  /** The new window, if an executed call starts one. */
  ghost predicate WindowOk(p: Setup, calls: seq<Call>, fates: seq<Fate>, window: Option<string>)
    requires |fates| <= |calls|
  {
    && (window.Some? <==> exists i :: 0 <= i < |fates| && Opens(p, calls[i], fates[i]))
    && (window.Some? ==> exists i :: 0 <= i < |fates| && Opens(p, calls[i], fates[i]) && window == calls[i].cut)
  }

  ghost predicate Accounts(p: Setup, rounds: nat, entry: nat, closed: bool, crowded: bool, calls: seq<Call>, fates: seq<Fate>, b: Batch) {
    && FatesOk(p, entry, closed, crowded, calls, fates, b)
    && StartedOk(rounds, entry, calls, fates, b) && WindowOk(p, calls, fates, b.window)
  }

  /** An executed call that starts a new window. */
  predicate Opens(p: Setup, c: Call, fate: Fate) {
    fate == Replied && c.kind == Window && c.cut.Some? && p.cutAt.Some?
  }

  lemma {:induction false} AnsweredAccounts(p: Setup, rounds: nat, entry: nat, closed: bool, crowded: bool, calls: seq<Call>, n: nat)
    returns (fates: seq<Fate>)
    requires n <= |calls|
    ensures |fates| == n && Accounts(p, rounds, entry, closed, crowded, calls, fates, Answered(p, rounds, entry, closed, crowded, calls, n))
    decreases n
  {
    hide Accounts;
    if n == 0 {
      fates := [];
      NoAccounts(p, rounds, entry, closed, crowded, calls);
    } else {
      var before := AnsweredAccounts(p, rounds, entry, closed, crowded, calls, n - 1);
      var b := Answered(p, rounds, entry, closed, crowded, calls, n - 1);
      var f := FateOf(p, closed, crowded, b.cost);
      fates := before + [f];
      AccountsGrow(p, rounds, entry, closed, crowded, calls, before, b, Answered(p, rounds, entry, closed, crowded, calls, n));
    }
  }

  lemma NoAccounts(p: Setup, rounds: nat, entry: nat, closed: bool, crowded: bool, calls: seq<Call>)
    ensures Accounts(p, rounds, entry, closed, crowded, calls, [], Batch(entry, [], None, []))
  {
  }

  /** One more call. */
  lemma AccountsGrow(p: Setup, rounds: nat, entry: nat, closed: bool, crowded: bool, calls: seq<Call>, fates: seq<Fate>, b: Batch, next: Batch)
    requires |fates| < |calls| && Accounts(p, rounds, entry, closed, crowded, calls, fates, b)
    requires next == Answered(p, rounds, entry, closed, crowded, calls, |fates| + 1)
    requires b == Answered(p, rounds, entry, closed, crowded, calls, |fates|)
    ensures Accounts(p, rounds, entry, closed, crowded, calls, fates + [FateOf(p, closed, crowded, b.cost)], next)
  {
    hide StartedOk, WindowOk, FatesOk, AddedTokens;
    var f := FateOf(p, closed, crowded, b.cost);
    FatesGrow(p, entry, closed, crowded, calls, fates, b, next);
    StartedGrow(p, rounds, entry, closed, crowded, calls, fates, b, next);
    WindowNext(p, calls, fates, f, b.window, next.window);
  }

  lemma FatesGrow(p: Setup, entry: nat, closed: bool, crowded: bool, calls: seq<Call>, fates: seq<Fate>, b: Batch, next: Batch)
    requires |fates| < |calls| && FatesOk(p, entry, closed, crowded, calls, fates, b)
    requires var c, f := calls[|fates|], FateOf(p, closed, crowded, b.cost);
             next.cost == b.cost + AddedTokens(Given(c, f).size) && next.results == b.results + [Given(c, f).item]
    ensures FatesOk(p, entry, closed, crowded, calls, fates + [FateOf(p, closed, crowded, b.cost)], next)
  {
    hide AddedTokens, CostBefore, Items, FateOf;
    var f, n := FateOf(p, closed, crowded, b.cost), |fates|;
    CostsSame(entry, calls, fates, f);
    CostNext(entry, calls, fates + [f], n);
    ItemsNext(calls, fates, f);
  }

  lemma CostsSame(entry: nat, calls: seq<Call>, fates: seq<Fate>, f: Fate)
    requires |fates| < |calls|
    ensures forall i :: 0 <= i <= |fates| ==> CostBefore(entry, calls, fates + [f], i) == CostBefore(entry, calls, fates, i)
  {
    forall i | 0 <= i <= |fates| ensures CostBefore(entry, calls, fates + [f], i) == CostBefore(entry, calls, fates, i) {
      CostPrefix(entry, calls, fates, fates + [f], i);
    }
  }

  lemma StartedGrow(p: Setup, rounds: nat, entry: nat, closed: bool, crowded: bool, calls: seq<Call>, fates: seq<Fate>, b: Batch, next: Batch)
    requires |fates| < |calls| && FatesOk(p, entry, closed, crowded, calls, fates, b) && StartedOk(rounds, entry, calls, fates, b)
    requires next.cost > b.cost
    requires next.started == if FateOf(p, closed, crowded, b.cost) == Replied then b.started + [(rounds, b.cost)] else b.started
    ensures StartedOk(rounds, entry, calls, fates + [FateOf(p, closed, crowded, b.cost)], next)
  {
    hide CostBefore, Items, FateOf;
    var f, n := FateOf(p, closed, crowded, b.cost), |fates|;
    CostsSame(entry, calls, fates, f);
    forall i | 0 <= i < n ensures CostBefore(entry, calls, fates, i) < b.cost {
      CostsGrow(entry, calls, fates, i, n);
    }
    StartedNext(b.started, next.started, (rounds, b.cost), f == Replied);
  }

  lemma CostNext(entry: nat, calls: seq<Call>, fates: seq<Fate>, n: nat)
    requires n < |calls| && n < |fates|
    ensures CostBefore(entry, calls, fates, n + 1) == CostBefore(entry, calls, fates, n) + AddedTokens(Given(calls[n], fates[n]).size)
  {
  }

  lemma ItemsNext(calls: seq<Call>, fates: seq<Fate>, f: Fate)
    requires |fates| < |calls|
    ensures Items(calls[..|fates| + 1], fates + [f]) == Items(calls[..|fates|], fates) + [Given(calls[|fates|], f).item]
  {
  }

  lemma StartedNext(was: seq<(nat, nat)>, now: seq<(nat, nat)>, x: (nat, nat), starts: bool)
    requires now == if starts then was + [x] else was
    ensures forall y :: y in now <==> y in was || (starts && y == x)
  {
  }

  lemma WindowNext(p: Setup, calls: seq<Call>, fates: seq<Fate>, f: Fate, was: Option<string>, now: Option<string>)
    requires |fates| < |calls| && WindowOk(p, calls, fates, was)
    requires now == if Opens(p, calls[|fates|], f) then calls[|fates|].cut else was
    ensures WindowOk(p, calls, fates + [f], now)
  {
    var more, n := fates + [f], |fates|;
    assert more[n] == f && more[..n] == fates;
    if !Opens(p, calls[n], f) && was.Some? {
      var i :| 0 <= i < |fates| && Opens(p, calls[i], fates[i]) && was == calls[i].cut;
      assert Opens(p, calls[i], more[i]);
    }
  }

  lemma AccountsJudge(p: Setup, rounds: nat, entry: nat, closed: bool, crowded: bool, calls: seq<Call>, fates: seq<Fate>, b: Batch)
    requires |fates| == |calls| && Accounts(p, rounds, entry, closed, crowded, calls, fates, b)
    ensures Judged(p, closed, crowded, entry, calls, fates) && b.results == Items(calls, fates)
  {
    hide CostBefore, Items, StartedOk, WindowOk;
    assert calls[..|fates|] == calls;
  }

  // ---------------------------------------------------------------- one round

  lemma SelectNext(p: Setup, calls: seq<Call>, c: Call, owned: bool)
    ensures Select(p, calls + [c], |calls| + 1, owned) ==
              Select(p, calls, |calls|, owned) + if IsOwned(p, c) == owned then [c] else []
  {
    SelectPrefix(p, calls + [c], calls, owned);
  }

  /** Sorting calls into the gateway's and the client's keeps their order: a list is sorted piece by piece, and a
      call by itself by whose it is. */
  lemma {:induction false} OwnedInOrder(p: Setup, a: seq<Call>, b: seq<Call>, c: Call, owned: bool)
    ensures Select(p, a + b, |a + b|, owned) == Select(p, a, |a|, owned) + Select(p, b, |b|, owned)
    ensures Select(p, [c], 1, owned) == if IsOwned(p, c) == owned then [c] else []
    decreases |b|
  {
    SelectNext(p, [], c, owned);
    assert [] + [c] == [c];
    if b == [] {
      assert a + b == a;
    } else {
      hide Select, IsOwned;
      var init, last := b[..|b| - 1], Last(b);
      assert b == init + [last] && a + b == (a + init) + [last];
      OwnedInOrder(p, a, init, c, owned);
      SelectNext(p, a + init, last, owned);
      SelectNext(p, init, last, owned);
    }
  }

  lemma SelectPrefix(p: Setup, calls: seq<Call>, first: seq<Call>, owned: bool)
    requires first <= calls
    ensures Select(p, calls, |first|, owned) == Select(p, first, |first|, owned)
    decreases |first|
  {
    if first != [] {
      var init := first[..|first| - 1];
      SelectPrefix(p, calls, init, owned);
      SelectPrefix(p, first, init, owned);
    }
  }

  lemma {:induction false} SelectHas(p: Setup, calls: seq<Call>, n: nat, owned: bool, c: Call)
    requires n <= |calls|
    ensures c in Select(p, calls, n, owned) <==> c in calls[..n] && IsOwned(p, c) == owned
    decreases n
  {
    if n > 0 {
      SelectHas(p, calls, n - 1, owned, c);
      assert calls[..n] == calls[..n - 1] + [calls[n - 1]];
    }
  }

  /** What was spent once the reply was read: its reported tokens, or a third of its size; the first reply is free. */
  function CostRead(cost: nat, rounds: nat, r: Round): nat {
    if rounds == 0 then cost else cost + if r.tokens > 0 then r.tokens else AddedTokens(r.size)
  }

  /** What was spent before the first call is looked at: the first round pays for its calls. */
  function CostEntered(cost: nat, rounds: nat, r: Round): nat {
    if rounds == 0 then cost + AddedTokens(r.callsSize) else CostRead(cost, rounds, r)
  }

  predicate ClosedAt(p: Setup, cost: nat, rounds: nat, r: Round) {
    || p.closed || (p.maxRounds > 0 && rounds >= p.maxRounds) || (p.budget > 0 && CostRead(cost, rounds, r) >= p.budget)
  }

  /** A new window is asked for in a round with other calls. */
  predicate CrowdedAt(p: Setup, r: Round) {
    |r.calls| > 1 && exists i :: 0 <= i < |r.calls| && p.active && r.calls[i].kind == Window
  }

  lemma CrowdedIs(p: Setup, r: Round)
    ensures Crowded(r, Owned(p, r)) <==> CrowdedAt(p, r)
  {
    hide Select;
    var owned := Owned(p, r);
    assert r.calls[..|r.calls|] == r.calls;
    forall i | 0 <= i < |owned| ensures owned[i] in r.calls && IsOwned(p, owned[i]) {
      SelectHas(p, r.calls, |r.calls|, true, owned[i]);
    }
    forall i | 0 <= i < |r.calls| && IsOwned(p, r.calls[i]) ensures r.calls[i] in owned {
      SelectHas(p, r.calls, |r.calls|, true, r.calls[i]);
    }
  }

  /** What the model was told in a round that did not fail. */
  ghost predicate RoundTold(p: Setup, cost: nat, rounds: nat, r: Round, fates: seq<Fate>) {
    && (p.active ==> forall i :: 0 <= i < |r.calls| ==> r.calls[i].kind != Unavailable)
    && (Owned(p, r) != [] ==> r.toolStop)
    && Judged(p, ClosedAt(p, cost, rounds, r), CrowdedAt(p, r), CostEntered(cost, rounds, r), Owned(p, r), fates)
  }

  function RoundCost(p: Setup, cost: nat, rounds: nat, r: Round, fates: seq<Fate>): nat
    requires |fates| == |Owned(p, r)|
  {
    if Owned(p, r) == [] then CostRead(cost, rounds, r)
    else CostBefore(CostEntered(cost, rounds, r), Owned(p, r), fates, |fates|)
  }

  /** The round starts a new window: its one call asked for it, was executed and got a cut. */
  predicate Resets(p: Setup, r: Round, fates: seq<Fate>) {
    |r.calls| == 1 && IsOwned(p, r.calls[0]) && fates == [Replied] && Opens(p, r.calls[0], Replied)
  }

  lemma ObservedIs(p: Setup, s: Loop, r: Round)
    ensures var t := Observed(s, r);
            && t == s.(transcript := s.transcript + r.output, cost := CostRead(s.cost, s.rounds, r))
            && Entry(t, r) == CostEntered(s.cost, s.rounds, r)
            && (Closed(p, t) <==> ClosedAt(p, s.cost, s.rounds, r))
  {
  }

  /** A round fails exactly if it calls a gateway tool that is not offered; or calls gateway tools with a wrong
      stop reason, or in a closed request right after a refused round. */
  lemma FailsExactly(p: Setup, s: Loop, r: Round)
    requires Ready(p)
    ensures Turned(p, s, r).Fail? <==>
              || (p.active && exists i :: 0 <= i < |r.calls| && r.calls[i].kind == Unavailable)
              || ((exists i :: 0 <= i < |r.calls| && IsOwned(p, r.calls[i])) &&
                  (!r.toolStop || (ClosedAt(p, s.cost, s.rounds, r) && s.refused)))
  {
    hide Select, Answered, Closed, Base, Settled, IsOwned;
    ObservedIs(p, s, r);
    var owned := Owned(p, r);
    assert r.calls[..|r.calls|] == r.calls;
    if owned != [] {
      SelectHas(p, r.calls, |r.calls|, true, owned[0]);
    }
    forall i | 0 <= i < |r.calls| && IsOwned(p, r.calls[i]) ensures owned != [] {
      SelectHas(p, r.calls, |r.calls|, true, r.calls[i]);
    }
  }

  /** Only a lone call can start a new window. */
  lemma ResetsIs(p: Setup, r: Round, fates: seq<Fate>, closed: bool, entry: nat, window: Option<string>)
    requires Judged(p, closed, CrowdedAt(p, r), entry, Owned(p, r), fates) && WindowOk(p, Owned(p, r), fates, window)
    ensures window.Some? <==> Resets(p, r, fates)
    ensures window.Some? ==> window == r.calls[0].cut
  {
    hide Select, CostBefore;
    var owned := Owned(p, r);
    assert r.calls[..|r.calls|] == r.calls;
    if window.Some? {
      var i :| 0 <= i < |fates| && Opens(p, owned[i], fates[i]) && window == owned[i].cut;
      SelectHas(p, r.calls, |r.calls|, true, owned[i]);
      assert owned[i] in r.calls && |r.calls| == 1;
      LoneCall(p, r);
    }
    if Resets(p, r, fates) {
      LoneCall(p, r);
      assert Opens(p, owned[0], fates[0]);
    }
  }

  lemma LoneCall(p: Setup, r: Round)
    requires |r.calls| == 1 && IsOwned(p, r.calls[0])
    ensures Owned(p, r) == r.calls
  {
    assert Select(p, r.calls, 0, true) == [];
  }

  /** A round of gateway calls. */
  lemma ExecutedIsTold(p: Setup, s: Loop, r: Round) returns (fates: seq<Fate>)
    requires Ready(p) && Owned(p, r) != [] && Executed(p, Observed(s, r), r, Owned(p, r)).Some?
    ensures Judged(p, ClosedAt(p, s.cost, s.rounds, r), CrowdedAt(p, r), CostEntered(s.cost, s.rounds, r), Owned(p, r), fates)
    ensures var t := Executed(p, Observed(s, r), r, Owned(p, r)).value;
            && t.cost == CostBefore(CostEntered(s.cost, s.rounds, r), Owned(p, r), fates, |fates|)
            && t.rounds == s.rounds + 1 && t.refused == ClosedAt(p, s.cost, s.rounds, r)
            && (if Resets(p, r, fates) then t.transcript == [] && t.window == r.calls[0].cut
                else t.transcript == s.transcript + r.output + Items(Owned(p, r), fates) && t.window == s.window)
            && s.started <= t.started
            && (forall i :: 0 <= i < |fates| ==>
                  (fates[i] == Replied <==>
                     (s.rounds, CostBefore(CostEntered(s.cost, s.rounds, r), Owned(p, r), fates, i)) in t.started[|s.started|..]))
            && (forall x :: x in t.started[|s.started|..] ==> x.0 == s.rounds)
  {
    hide Select, Answered, Base, CostBefore, Judged, FatesOk, Items, Closed, ClosedAt, CrowdedAt, Crowded, Resets, WindowOk;
    var o, owned, entry := Observed(s, r), Owned(p, r), CostEntered(s.cost, s.rounds, r);
    ObservedIs(p, s, r);
    CrowdedIs(p, r);
    var closed, crowded := Closed(p, o), Crowded(r, owned);
    var b := Answered(p, o.rounds, entry, closed, crowded, owned, |owned|);
    fates := AnsweredAccounts(p, o.rounds, entry, closed, crowded, owned, |owned|);
    AccountsJudge(p, o.rounds, entry, closed, crowded, owned, fates, b);
    ResetsIs(p, r, fates, closed, entry, b.window);
    assert b.cost == CostBefore(entry, owned, fates, |fates|) by { FatesCost(p, entry, closed, crowded, owned, fates, b); }
    var t := Executed(p, o, r, owned).value;
    assert t.started[|s.started|..] == b.started;
  }

  lemma FatesCost(p: Setup, entry: nat, closed: bool, crowded: bool, calls: seq<Call>, fates: seq<Fate>, b: Batch)
    requires FatesOk(p, entry, closed, crowded, calls, fates, b)
    ensures b.cost == CostBefore(entry, calls, fates, |fates|)
  {
  }

  /** One reply that did not fail: what its calls were told, what that cost, and what became of the transcript.
      The loop goes on exactly if there were gateway calls and no others. */
  lemma RoundIsTold(p: Setup, s: Loop, r: Round) returns (fates: seq<Fate>)
    requires Ready(p) && !Turned(p, s, r).Fail?
    ensures RoundTold(p, s.cost, s.rounds, r, fates) && |fates| == |Owned(p, r)|
    ensures var t := Turned(p, s, r).loop;
            && t.cost == RoundCost(p, s.cost, s.rounds, r, fates)
            && t.rounds == (if Owned(p, r) == [] then s.rounds else s.rounds + 1)
            && t.refused == (if Owned(p, r) == [] then s.refused else ClosedAt(p, s.cost, s.rounds, r))
            && (if Resets(p, r, fates) then t.transcript == [] && t.window == r.calls[0].cut
                else t.transcript == s.transcript + r.output + Items(Owned(p, r), fates) && t.window == s.window)
            && s.started <= t.started
            && (forall i :: 0 <= i < |fates| ==>
                  (fates[i] == Replied <==>
                     (s.rounds, CostBefore(CostEntered(s.cost, s.rounds, r), Owned(p, r), fates, i)) in t.started[|s.started|..]))
            && (forall x :: x in t.started[|s.started|..] ==> x.0 == s.rounds)
    ensures Turned(p, s, r).Continue? <==> Owned(p, r) != [] && ForClient(p, r) == []
  {
    hide Select, Executed, CostBefore, Items, ClosedAt, CrowdedAt, CostEntered;
    ObservedIs(p, s, r);
    if Owned(p, r) == [] {
      fates := [];
      assert !Resets(p, r, fates);
      assert Items(Owned(p, r), fates) == [];
      assert s.transcript + r.output + [] == s.transcript + r.output;
    } else {
      fates := ExecutedIsTold(p, s, r);
    }
  }

  // ---------------------------------------------------------------- the whole request

  predicate Fitting(p: Setup, replies: seq<Round>, fates: seq<seq<Fate>>) {
    |fates| == |replies| && forall i :: 0 <= i < |replies| ==> |fates[i]| == |Owned(p, replies[i])|
  }

  /** Round by round, the model's output followed by what its gateway calls were told. */
  function Script(p: Setup, replies: seq<Round>, fates: seq<seq<Fate>>, from: nat, n: nat): seq<Item>
    requires Fitting(p, replies, fates) && n <= |replies|
  {
    if n <= from then []
    else Script(p, replies, fates, from, n - 1) + replies[n - 1].output + Items(Owned(p, replies[n - 1]), fates[n - 1])
  }

  /** Every round was judged by what had been spent when it began, `costs[i]`. */
  ghost predicate Story(p: Setup, replies: seq<Round>, fates: seq<seq<Fate>>, costs: seq<nat>) {
    && Fitting(p, replies, fates) && |costs| == |replies| + 1 && costs[0] == 0
    && forall i :: 0 <= i < |replies| ==>
         RoundTold(p, costs[i], i, replies[i], fates[i]) && costs[i + 1] == RoundCost(p, costs[i], i, replies[i], fates[i])
  }

  /** The loop after `replies`: `from` is where its window began. */
  ghost predicate Tells(p: Setup, s: Loop, replies: seq<Round>, fates: seq<seq<Fate>>, costs: seq<nat>, from: nat) {
    && Story(p, replies, fates, costs) && s.cost == costs[|replies|]
    && from <= |replies| && s.transcript == Script(p, replies, fates, from, |replies|)
    && (from == 0 ==> s.window.None?)
    && (from > 0 ==> Resets(p, replies[from - 1], fates[from - 1]) && s.window == replies[from - 1].calls[0].cut)
    && (forall i :: from <= i < |replies| ==> !Resets(p, replies[i], fates[i]))
    && Logged(p, s.started, replies, fates, costs)
  }

  /** The tokens spent when call `k` of round `i` was looked at. */
  function CostOf(p: Setup, replies: seq<Round>, fates: seq<seq<Fate>>, costs: seq<nat>, i: nat, k: nat): nat
    requires i < |replies| && i < |fates| && i < |costs| && k < |fates[i]| <= |Owned(p, replies[i])|
  {
    CostBefore(CostEntered(costs[i], i, replies[i]), Owned(p, replies[i]), fates[i], k)
  }

  /** The executor calls started: those of the calls that were replied to, and no others. */
  ghost predicate Logged(p: Setup, started: seq<(nat, nat)>, replies: seq<Round>, fates: seq<seq<Fate>>, costs: seq<nat>)
    requires Fitting(p, replies, fates) && |costs| == |replies| + 1
  {
    && (forall x :: x in started ==> x.0 < |replies|)
    && (forall i: nat, k: nat :: i < |replies| && k < |fates[i]| ==>
          (fates[i][k] == Replied <==> (i, CostOf(p, replies, fates, costs, i, k)) in started))
  }

  lemma LoggedOn(p: Setup, was: seq<(nat, nat)>, now: seq<(nat, nat)>, replies: seq<Round>, fates: seq<seq<Fate>>, costs: seq<nat>,
                 r: Round, f: seq<Fate>, cost: nat)
    requires Fitting(p, replies, fates) && |costs| == |replies| + 1 && |f| == |Owned(p, r)|
    requires Logged(p, was, replies, fates, costs) && was <= now
    requires forall x :: x in now[|was|..] ==> x.0 == |replies|
    requires forall k :: 0 <= k < |f| ==>
               (f[k] == Replied <==>
                  (|replies|, CostBefore(CostEntered(costs[|replies|], |replies|, r), Owned(p, r), f, k)) in now[|was|..])
    ensures Fitting(p, replies + [r], fates + [f]) && Logged(p, now, replies + [r], fates + [f], costs + [cost])
  {
    hide CostBefore, CostEntered, Owned;
    var n := |replies|;
    var more, told, paid := replies + [r], fates + [f], costs + [cost];
    assert now == was + now[|was|..];
    forall i: nat, k: nat | i < |more| && k < |told[i]|
      ensures told[i][k] == Replied <==> (i, CostOf(p, more, told, paid, i, k)) in now
    {
      if i < n {
        assert CostOf(p, more, told, paid, i, k) == CostOf(p, replies, fates, costs, i, k);
      }
    }
  }

  lemma {:induction false} ScriptPrefix(p: Setup, replies: seq<Round>, fates: seq<seq<Fate>>, r: Round, f: seq<Fate>, from: nat, n: nat)
    requires Fitting(p, replies, fates) && |f| == |Owned(p, r)| && n <= |replies|
    ensures Fitting(p, replies + [r], fates + [f])
    ensures Script(p, replies + [r], fates + [f], from, n) == Script(p, replies, fates, from, n)
    decreases n
  {
    hide Items, Owned;
    if n > from {
      ScriptPrefix(p, replies, fates, r, f, from, n - 1);
    }
  }

  lemma StoryGrows(p: Setup, replies: seq<Round>, fates: seq<seq<Fate>>, costs: seq<nat>, r: Round, f: seq<Fate>)
    requires Story(p, replies, fates, costs) && RoundTold(p, costs[|replies|], |replies|, r, f)
    ensures Story(p, replies + [r], fates + [f], costs + [RoundCost(p, costs[|replies|], |replies|, r, f)])
  {
    hide RoundCost, Owned, ClosedAt, CrowdedAt, CostEntered;
    var n, cost := |replies|, RoundCost(p, costs[|replies|], |replies|, r, f);
    var more, told, paid := replies + [r], fates + [f], costs + [cost];
    forall i | 0 <= i < |more|
      ensures RoundTold(p, paid[i], i, more[i], told[i]) && paid[i + 1] == RoundCost(p, paid[i], i, more[i], told[i])
    {
      if i < n {
        assert RoundTold(p, costs[i], i, replies[i], fates[i]);
        assert costs[i + 1] == RoundCost(p, costs[i], i, replies[i], fates[i]);
        assert paid[i + 1] == costs[i + 1];
      }
    }
  }

  /** One more reply. */
  lemma TellsOn(p: Setup, s: Loop, replies: seq<Round>, fates: seq<seq<Fate>>, costs: seq<nat>, from: nat, r: Round)
    returns (f: seq<Fate>, cost: nat, since: nat)
    requires Ready(p) && Tells(p, s, replies, fates, costs, from) && s.rounds == |replies| && !Turned(p, s, r).Fail?
    ensures Tells(p, Turned(p, s, r).loop, replies + [r], fates + [f], costs + [cost], since)
  {
    hide Turned, Items, Owned, RoundCost, ClosedAt, CrowdedAt, CostEntered, CostBefore, Judged, Story, Resets, Logged;
    StoryFits(p, replies, fates, costs);
    f := RoundIsTold(p, s, r);
    cost := RoundCost(p, s.cost, s.rounds, r, f);
    since := if Resets(p, r, f) then |replies| + 1 else from;
    StoryGrows(p, replies, fates, costs, r, f);
    assert |f| == |Owned(p, r)| && s.cost == costs[|replies|];
    LoggedOn(p, s.started, Turned(p, s, r).loop.started, replies, fates, costs, r, f, cost);
    ScriptPrefix(p, replies, fates, r, f, from, |replies|);
    assert (costs + [cost])[|replies| + 1] == cost by { StoryFits(p, replies, fates, costs); }
    assert (fates + [f])[|replies|] == f && (replies + [r])[|replies|] == r;
    assert (replies + [r])[..|replies|] == replies && (fates + [f])[..|replies|] == fates;
  }

  lemma StoryFits(p: Setup, replies: seq<Round>, fates: seq<seq<Fate>>, costs: seq<nat>)
    requires Story(p, replies, fates, costs)
    ensures |fates| == |replies| && |costs| == |replies| + 1 && Fitting(p, replies, fates)
  {
  }

  lemma {:induction false} RunSnoc(p: Setup, s: Loop, replies: seq<Round>, r: Round)
    requires Ready(p)
    ensures Run(p, s, replies + [r]) ==
              if Run(p, s, replies).Continue? then Turned(p, Run(p, s, replies).loop, r) else Run(p, s, replies)
    decreases |replies|
  {
    hide Turned;
    if replies == [] {
      assert replies + [r] == [r] && [r][1..] == [];
    } else {
      assert (replies + [r])[1..] == replies[1..] + [r];
      var t := Turned(p, s, replies[0]);
      if t.Continue? {
        RunSnoc(p, t.loop, replies[1..], r);
      }
    }
  }

  /** A loop that goes on was asked for gateway calls only, in every round. */
  predicate GoesOn(p: Setup, r: Round) {
    Owned(p, r) != [] && ForClient(p, r) == []
  }

  lemma {:induction false} ContinuesTold(p: Setup, replies: seq<Round>) returns (fates: seq<seq<Fate>>, costs: seq<nat>, from: nat)
    requires Ready(p) && Run(p, Begin(p), replies).Continue?
    ensures Tells(p, Run(p, Begin(p), replies).loop, replies, fates, costs, from)
    ensures Run(p, Begin(p), replies).loop.rounds == |replies| && forall i :: 0 <= i < |replies| ==> GoesOn(p, replies[i])
    decreases |replies|
  {
    hide Turned, Tells, GoesOn;
    if replies == [] {
      fates, costs, from := [], [0], 0;
      assert Tells(p, Begin(p), [], [], [0], 0) by { NothingTold(p); }
    } else {
      var before, r := replies[..|replies| - 1], Last(replies);
      assert replies == before + [r];
      RunSnoc(p, Begin(p), before, r);
      var s := Run(p, Begin(p), before).loop;
      fates, costs, from := ContinuesTold(p, before);
      var f, cost, since := TellsOn(p, s, before, fates, costs, from, r);
      var told := RoundIsTold(p, s, r);
      assert GoesOn(p, r) by { GoesOnIs(p, r); }
      fates, costs, from := fates + [f], costs + [cost], since;
    }
  }

  lemma GoesOnIs(p: Setup, r: Round)
    ensures GoesOn(p, r) <==> Owned(p, r) != [] && ForClient(p, r) == []
  {
  }

  lemma NothingTold(p: Setup)
    ensures Tells(p, Begin(p), [], [], [0], 0)
  {
  }

  /** A run that finishes does so at one of the replies. */
  lemma {:induction false} RunEnds(p: Setup, s: Loop, replies: seq<Round>) returns (n: nat)
    requires Ready(p) && Run(p, s, replies).Finish?
    ensures n < |replies| && Run(p, s, replies[..n]).Continue?
    ensures Run(p, s, replies) == Turned(p, Run(p, s, replies[..n]).loop, replies[n])
    decreases |replies|
  {
    hide Turned;
    var t := Turned(p, s, replies[0]);
    if t.Continue? {
      var m := RunEnds(p, t.loop, replies[1..]);
      n := m + 1;
      assert replies[..n][1..] == replies[1..][..m];
    } else {
      n := 0;
    }
  }

  /** Whatever the model and the tools answer: the transcript is, round by round since the last new window, the
      model's output followed by one result per gateway call, in order. A result is the executor's exactly if the
      call was started, the refusal exactly if the request was closed or out of tokens by then, and otherwise says
      that a new window must be asked for alone. Every round's cost is what it reported, or a third of its size,
      and a third of what its calls were told. */
  lemma TranscriptIsTold(p: Setup, replies: seq<Round>)
    returns (n: nat, fates: seq<seq<Fate>>, costs: seq<nat>, from: nat)
    requires Ready(p) && !Run(p, Begin(p), replies).Fail?
    ensures n <= |replies| && Tells(p, Run(p, Begin(p), replies).loop, replies[..n], fates, costs, from)
    ensures Run(p, Begin(p), replies).Continue? ==> n == |replies| && forall i :: 0 <= i < n ==> GoesOn(p, replies[i])
    ensures Run(p, Begin(p), replies).Finish? ==>
              n > 0 && !GoesOn(p, replies[n - 1]) && forall i :: 0 <= i < n - 1 ==> GoesOn(p, replies[i])
  {
    hide Turned, Tells, GoesOn, Run, Begin;
    if Run(p, Begin(p), replies).Continue? {
      n := |replies|;
      assert replies[..n] == replies;
      fates, costs, from := ContinuesTold(p, replies);
    } else {
      var m := RunEnds(p, Begin(p), replies);
      var before, r := replies[..m], replies[m];
      fates, costs, from := ContinuesTold(p, before);
      var s := Run(p, Begin(p), before).loop;
      var f, cost, since := TellsOn(p, s, before, fates, costs, from, r);
      var told := RoundIsTold(p, s, r);
      GoesOnIs(p, r);
      assert replies[..m + 1] == before + [r];
      n, fates, costs, from := m + 1, fates + [f], costs + [cost], since;
      assert forall i :: 0 <= i < m ==> replies[i] == before[i];
    }
  }
}
