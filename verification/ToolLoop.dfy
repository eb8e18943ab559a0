/**
 The hidden tool loop (tool_loop.py): rounds of gateway tool calls the client never sees.

 An upstream reply is an input, and so is what the executor would answer to each call; whether a call is
 executed, refused or turned away is the loop's decision. A limit of 0 stands for an unset one. Sizes are
 byte lengths of JSON lists and objects.
 */
module ToolLoop {
  import opened Basics
  import opened Cuts

  type Size = n: nat | n >= 2 witness 2

  datatype Answer = Answer(item: Item, size: Size)
  /** A call to start a new window, to another gateway tool, to one not offered, or to the client. */
  datatype Kind = Window | Gateway | Unavailable | Client
  /** `reply` and `cut` are what the executor would answer; `refusal` and `alone` the loop's own answers. */
  datatype Call = Call(kind: Kind, reply: Answer, cut: Option<string>, refusal: Answer, alone: Answer)
  datatype Round = Round(output: seq<Item>, size: Size, tokens: nat, calls: seq<Call>, callsSize: Size, toolStop: bool)

  /** The prepared request: its assembled history, how much of it a new window cuts (if one can start),
      whether gateway tools are on, whether they are closed from the outset, and the two limits. */
  datatype Setup = Setup(start: seq<Item>, cutAt: Option<nat>, active: bool, closed: bool, maxRounds: nat, budget: nat)

  predicate Ready(p: Setup) {
    p.cutAt.Some? ==> p.cutAt.value <= |p.start|
  }

  datatype Sent = Sent(body: seq<Item>, window: Option<string>, transcript: seq<Item>)
  /** The loop's fields, then what it has done: bodies sent, executor calls started (each with the rounds
      and tokens spent by then), rounds refused and windows started. */
  datatype Loop = Loop(body: seq<Item>, transcript: seq<Item>, rounds: nat, cost: nat, refused: bool, window: Option<string>,
                       sent: seq<Sent>, started: seq<(nat, nat)>, refusals: nat, resets: nat)

  function Begin(p: Setup): Loop {
    Loop(p.start, [], 0, 0, false, None, [], [], 0, 0)
  }

  /** A third of the size, rounded up. */
  function AddedTokens(size: Size): (n: nat)
    ensures n > 0 && size <= 3 * n < size + 3
  {
    (size + 2) / 3
  }

  predicate Spent(p: Setup, cost: nat) {
    p.budget > 0 && cost >= p.budget
  }

  predicate Closed(p: Setup, s: Loop) {
    p.closed || (p.maxRounds > 0 && s.rounds >= p.maxRounds) || Spent(p, s.cost)
  }

  function Observed(s: Loop, r: Round): Loop {
    s.(transcript := s.transcript + r.output,
       cost := if s.rounds == 0 then s.cost else s.cost + if r.tokens > 0 then r.tokens else AddedTokens(r.size))
  }

  predicate IsOwned(p: Setup, c: Call) {
    p.active && (c.kind == Window || c.kind == Gateway)
  }

  function Select(p: Setup, calls: seq<Call>, n: nat, owned: bool): seq<Call>
    requires n <= |calls|
  {
    if n == 0 then []
    else Select(p, calls, n - 1, owned) + if IsOwned(p, calls[n - 1]) == owned then [calls[n - 1]] else []
  }

  function Owned(p: Setup, r: Round): seq<Call> {
    Select(p, r.calls, |r.calls|, true)
  }

  function ForClient(p: Setup, r: Round): seq<Call> {
    Select(p, r.calls, |r.calls|, false)
  }

  /** The model asks for a new window together with other calls: then none of them is executed. */
  predicate Crowded(r: Round, owned: seq<Call>) {
    |r.calls| > 1 && exists i :: 0 <= i < |owned| && owned[i].kind == Window
  }

  datatype Batch = Batch(cost: nat, results: seq<Item>, window: Option<string>, started: seq<(nat, nat)>)

  /** The first `n` calls of a round, answered in turn. */
  function Answered(p: Setup, rounds: nat, cost: nat, closed: bool, crowded: bool, calls: seq<Call>, n: nat): Batch
    requires n <= |calls|
  {
    if n == 0 then Batch(cost, [], None, [])
    else
      var b := Answered(p, rounds, cost, closed, crowded, calls, n - 1);
      var c := calls[n - 1];
      if closed || Spent(p, b.cost) then
        b.(cost := b.cost + AddedTokens(c.refusal.size), results := b.results + [c.refusal.item])
      else if crowded then
        b.(cost := b.cost + AddedTokens(c.alone.size), results := b.results + [c.alone.item])
      else
        Batch(b.cost + AddedTokens(c.reply.size), b.results + [c.reply.item],
              if c.kind == Window && c.cut.Some? && p.cutAt.Some? then c.cut else b.window,
              b.started + [(rounds, b.cost)])
  }

  function Base(p: Setup, window: Option<string>): seq<Item>
    requires Ready(p)
  {
    if window.Some? && p.cutAt.Some? then Cut(p.start, p.cutAt.value, window.value) else p.start
  }

  /** What the loop pays for the round's calls before it answers any of them. */
  function Entry(s: Loop, r: Round): nat {
    if s.rounds == 0 then s.cost + AddedTokens(r.callsSize) else s.cost
  }

  /** The end of a round: a new window replaces everything, or the round joins body and transcript. */
  function Settled(p: Setup, s: Loop, r: Round, b: Batch): Loop
    requires Ready(p)
  {
    var t := s.(rounds := s.rounds + 1, cost := b.cost, started := s.started + b.started);
    if b.window.Some?
    then t.(body := Base(p, b.window), transcript := [], window := b.window, resets := s.resets + 1)
    else t.(transcript := s.transcript + b.results, body := s.body + (r.output + b.results))
  }

  function Marked(s: Loop, closed: bool): Loop {
    s.(refused := closed, refusals := if closed then s.refusals + 1 else s.refusals)
  }

  /** A round of gateway calls, or nothing if calls follow a refused round in a closed request. */
  function Executed(p: Setup, s: Loop, r: Round, owned: seq<Call>): Option<Loop>
    requires Ready(p)
  {
    var closed := Closed(p, s);
    if closed && s.refused then None
    else
      Some(Settled(p, Marked(s, closed), r,
                   Answered(p, s.rounds, Entry(s, r), closed, Crowded(r, owned), owned, |owned|)))
  }

  /** Sent on for another round; finished and persisted, `last` being output not in the body; or failed. */
  datatype Turn = Continue(loop: Loop) | Finish(loop: Loop, last: seq<Item>) | Fail

  function Dispatch(s: Loop): Loop {
    s.(sent := s.sent + [Sent(s.body, s.window, s.transcript)])
  }

  predicate Offered(p: Setup, r: Round) {
    p.active ==> forall i :: 0 <= i < |r.calls| ==> r.calls[i].kind != Unavailable
  }

  /** One upstream reply, read to its end. */
  function Turned(p: Setup, s: Loop, r: Round): Turn
    requires Ready(p)
  {
    var t := Observed(s, r);
    var owned := Owned(p, r);
    if !Offered(p, r) || (owned != [] && !r.toolStop) then Fail
    else if owned == [] then Finish(t, r.output)
    else
      var u := Executed(p, t, r, owned);
      if u.None? then Fail
      else if ForClient(p, r) != [] then Finish(u.value, [])
      else Continue(Dispatch(u.value))
  }

  /** The loop over the upstream replies that arrive. */
  function Run(p: Setup, s: Loop, replies: seq<Round>): Turn
    requires Ready(p)
    decreases |replies|
  {
    if replies == [] then Continue(s)
    else
      var t := Turned(p, s, replies[0]);
      if t.Continue? then Run(p, t.loop, replies[1..]) else t
  }

  datatype Ending = Waiting | Finished | Failed

  ghost predicate Ends(ending: Ending, turn: Turn, now: Loop) {
    match ending
    case Waiting => turn == Continue(now)
    case Finished => turn.Finish? && turn.loop == now
    case Failed => turn.Fail?
  }

  class HiddenToolLoop {
    const setup: Setup
    var body: seq<Item>
    var transcript: seq<Item>
    var rounds: nat
    var cost: nat
    var refused: bool
    var window: Option<string>
    ghost var sent: seq<Sent>
    ghost var started: seq<(nat, nat)>
    ghost var refusals: nat
    ghost var resets: nat

    ghost function Now(): Loop
      reads this
    {
      Loop(body, transcript, rounds, cost, refused, window, sent, started, refusals, resets)
    }

    constructor (setup: Setup)
      ensures this.setup == setup && Now() == Begin(setup)
    {
      this.setup, body, transcript, rounds, cost, refused, window := setup, setup.start, [], 0, 0, false, None;
      sent, started, refusals, resets := [], [], 0, 0;
    }

    method Observe(r: Round)
      modifies this
      ensures Now() == Observed(old(Now()), r)
    {
      transcript := transcript + r.output;
      if rounds > 0 {
        cost := cost + if r.tokens > 0 then r.tokens else AddedTokens(r.size);
      }
    }

    method Reset(text: string)
      requires Ready(setup) && setup.cutAt.Some?
      modifies this
      ensures Now() == old(Now()).(body := Base(setup, Some(text)), transcript := [], window := Some(text),
                                   resets := old(resets) + 1)
    {
      body := Cut(setup.start, setup.cutAt.value, text);
      transcript, window, resets := [], Some(text), resets + 1;
    }

    /** The loop of `execute` over a round's calls. */
    method AnswerCalls(owned: seq<Call>, closed: bool, crowded: bool)
      returns (results: seq<Item>, next: Option<string>, ghost calls: seq<(nat, nat)>)
      modifies this`cost
      ensures Batch(cost, results, next, calls) == Answered(setup, rounds, old(cost), closed, crowded, owned, |owned|)
      ensures next.Some? ==> setup.cutAt.Some?
      ensures |results| == |owned|
      ensures closed ==> calls == [] && forall i :: 0 <= i < |owned| ==> results[i] == owned[i].refusal.item
    {
      hide AddedTokens;
      results, next, calls := [], None, [];
      for n := 0 to |owned|
        invariant Batch(cost, results, next, calls) == Answered(setup, rounds, old(cost), closed, crowded, owned, n)
        invariant next.Some? ==> setup.cutAt.Some?
        invariant |results| == n
        invariant closed ==> calls == [] && forall i :: 0 <= i < n ==> results[i] == owned[i].refusal.item
      {
        var call := owned[n];
        if closed || (setup.budget > 0 && cost >= setup.budget) {
          results, cost := results + [call.refusal.item], cost + AddedTokens(call.refusal.size);
        } else if crowded {
          results, cost := results + [call.alone.item], cost + AddedTokens(call.alone.size);
        } else {
          calls := calls + [(rounds, cost)];
          if call.kind == Window && call.cut.Some? && setup.cutAt.Some? {
            next := call.cut;
          }
          results, cost := results + [call.reply.item], cost + AddedTokens(call.reply.size);
        }
      }
    }

    method Settle(r: Round, results: seq<Item>, next: Option<string>, ghost calls: seq<(nat, nat)>)
      requires Ready(setup) && (next.Some? ==> setup.cutAt.Some?)
      modifies this
      ensures Now() == Settled(setup, old(Now()), r, Batch(old(cost), results, next, calls))
    {
      hide Base;
      started := started + calls;
      if next.Some? {
        Reset(next.value);
      } else {
        transcript := transcript + results;
        body := body + (r.output + results);
      }
      rounds := rounds + 1;
    }

    method Execute(r: Round, owned: seq<Call>) returns (ok: bool)
      requires Ready(setup)
      modifies this
      ensures ok <==> Executed(setup, old(Now()), r, owned).Some?
      ensures ok ==> Now() == Executed(setup, old(Now()), r, owned).value
    {
      hide Answered, Crowded, AddedTokens, Settled;
      var closed := setup.closed || (setup.maxRounds > 0 && rounds >= setup.maxRounds) || (setup.budget > 0 && cost >= setup.budget);
      if closed && refused {
        return false;
      }
      ghost var s := Now();
      refused, refusals := closed, if closed then refusals + 1 else refusals;
      if rounds == 0 {
        cost := cost + AddedTokens(r.callsSize);
      }
      var results, next, calls := AnswerCalls(owned, closed, Crowded(r, owned));
      ghost var b := Batch(cost, results, next, calls);
      SettledCost(setup, Marked(s, closed), cost, r, b);
      Settle(r, results, next, calls);
      ok := true;
    }

    /** Which calls are the gateway's and which the client's; none may name a gateway tool not offered. */
    method Classify(r: Round) returns (ok: bool, owned: seq<Call>, client: seq<Call>)
      ensures ok <==> Offered(setup, r)
      ensures ok ==> owned == Owned(setup, r) && client == ForClient(setup, r)
    {
      owned, client := [], [];
      for n := 0 to |r.calls|
        invariant owned == Select(setup, r.calls, n, true) && client == Select(setup, r.calls, n, false)
        invariant setup.active ==> forall i :: 0 <= i < n ==> r.calls[i].kind != Unavailable
      {
        var call := r.calls[n];
        if !setup.active || call.kind == Client {
          client := client + [call];
        } else if call.kind == Unavailable {
          return false, owned, client;
        } else {
          owned := owned + [call];
        }
      }
      ok := true;
    }

    /** One pass of `run`: the fields move as `Turned` says. */
    method Pass(r: Round) returns (ending: Ending)
      requires Ready(setup)
      modifies this
      ensures Ends(ending, Turned(setup, old(Now()), r), Now())
    {
      hide Observed, Executed, Offered, Select;
      Observe(r);
      var ok, owned, client := Classify(r);
      if !ok || (owned != [] && !r.toolStop) {
        return Failed;
      }
      if owned != [] {
        var done := Execute(r, owned);
        if !done {
          return Failed;
        }
      }
      if client != [] || owned == [] {
        return Finished;
      }
      sent := sent + [Sent(body, window, transcript)];
      ending := Waiting;
    }

    /** `run`, fed the upstream replies that arrive. */
    method Consume(replies: seq<Round>) returns (ending: Ending)
      requires Ready(setup)
      modifies this
      ensures Ends(ending, Run(setup, old(Now()), replies), Now())
    {
      hide Turned;
      var n := 0;
      ending := Waiting;
      while n < |replies|
        invariant n <= |replies| && ending == Waiting
        invariant Run(setup, Now(), replies[n..]) == Run(setup, old(Now()), replies)
      {
        assert replies[n..][1..] == replies[n + 1..];
        ending := Pass(replies[n]);
        if ending != Waiting {
          return;
        }
        n := n + 1;
      }
    }
  }

  lemma SettledCost(p: Setup, s: Loop, cost: nat, r: Round, b: Batch)
    requires Ready(p)
    ensures Settled(p, s.(cost := cost), r, b) == Settled(p, s, r, b)
  {
  }

  // ---------------------------------------------------------------- what every run keeps

  lemma {:induction false} SelectSplits(p: Setup, calls: seq<Call>, n: nat)
    requires n <= |calls|
    ensures |Select(p, calls, n, true)| + |Select(p, calls, n, false)| == n
    decreases n
  {
    if n > 0 {
      SelectSplits(p, calls, n - 1);
    }
  }

  /** An executor call may start only while both limits are open. */
  predicate Open(p: Setup, at: (nat, nat)) {
    !p.closed && (p.maxRounds > 0 ==> at.0 < p.maxRounds) && !Spent(p, at.1)
  }

  ghost predicate AllOpen(p: Setup, started: seq<(nat, nat)>) {
    forall i :: 0 <= i < |started| ==> Open(p, started[i])
  }

  lemma {:induction false} AnsweredKeeps(p: Setup, s: Loop, cost: nat, crowded: bool, calls: seq<Call>, n: nat)
    requires n <= |calls|
    ensures var b := Answered(p, s.rounds, cost, Closed(p, s), crowded, calls, n);
            && b.cost >= cost + n
            && AllOpen(p, b.started)
            && (b.window.Some? ==> p.cutAt.Some? && !crowded && exists i :: 0 <= i < n && calls[i].kind == Window)
    decreases n
  {
    hide AddedTokens;
    if n > 0 {
      AnsweredKeeps(p, s, cost, crowded, calls, n - 1);
    }
  }

  /** At every send the body is the base followed by the transcript; `extra` is output not yet in it. */
  ghost predicate BodyOk(p: Setup, s: Loop, extra: seq<Item>) {
    && Ready(p)
    && (s.window.Some? ==> p.cutAt.Some?)
    && s.body + extra == Base(p, s.window) + s.transcript
    && (forall i :: 0 <= i < |s.sent| ==> s.sent[i].body == Base(p, s.sent[i].window) + s.sent[i].transcript)
  }

  /** At most one round is refused, and only in a closed request; calls start only in an open one. */
  ghost predicate LimitsOk(p: Setup, s: Loop) {
    && s.refusals == (if s.refused then 1 else 0)
    && (s.refused ==> Closed(p, s))
    && AllOpen(p, s.started)
    && s.cost >= s.rounds
    && (p.maxRounds > 0 ==> s.rounds <= p.maxRounds + s.refusals)
    && (p.budget > 0 ==> s.rounds <= p.budget + s.refusals)
    && (p.closed ==> s.rounds <= s.refusals)
  }

  lemma ObservedKeeps(p: Setup, s: Loop, r: Round)
    requires BodyOk(p, s, []) && LimitsOk(p, s)
    ensures BodyOk(p, Observed(s, r), r.output) && LimitsOk(p, Observed(s, r))
    ensures Closed(p, s) ==> Closed(p, Observed(s, r))
  {
    hide AddedTokens, Base;
    assert s.body + [] == s.body;
    assert Base(p, s.window) + (s.transcript + r.output) == Base(p, s.window) + s.transcript + r.output;
  }

  lemma ExecutedBody(p: Setup, s: Loop, r: Round, owned: seq<Call>)
    requires BodyOk(p, s, r.output) && Executed(p, s, r, owned).Some?
    ensures BodyOk(p, Executed(p, s, r, owned).value, [])
  {
    hide Answered, Closed, Crowded, Entry, Base;
    var closed := Closed(p, s);
    AnsweredKeeps(p, s, Entry(s, r), Crowded(r, owned), owned, |owned|);
    var b := Answered(p, s.rounds, Entry(s, r), closed, Crowded(r, owned), owned, |owned|);
    var t := Executed(p, s, r, owned).value;
    assert t.body + [] == t.body;
    if b.window.None? {
      assert s.body + (r.output + b.results) == (s.body + r.output) + b.results;
      assert Base(p, s.window) + (s.transcript + b.results) == (Base(p, s.window) + s.transcript) + b.results;
    }
  }

  lemma ExecutedLimits(p: Setup, s: Loop, r: Round, owned: seq<Call>)
    requires Ready(p) && LimitsOk(p, s) && owned != [] && Executed(p, s, r, owned).Some?
    ensures LimitsOk(p, Executed(p, s, r, owned).value)
    ensures Closed(p, s) ==> Closed(p, Executed(p, s, r, owned).value)
    ensures Executed(p, s, r, owned).value.rounds == s.rounds + 1
  {
    hide Answered, Crowded, AddedTokens, Base;
    AnsweredKeeps(p, s, Entry(s, r), Crowded(r, owned), owned, |owned|);
  }

  /** A new window starts only in a round with that one call, so never in one that hands calls on. */
  lemma ResetsAlone(p: Setup, s: Loop, r: Round)
    requires Ready(p) && !Turned(p, s, r).Fail?
    ensures Turned(p, s, r).loop.resets != s.resets ==> Turned(p, s, r).Continue? && |r.calls| == 1 && ForClient(p, r) == []
  {
    hide Answered, Closed, AddedTokens, Base;
    var t := Observed(s, r);
    var owned := Owned(p, r);
    SelectSplits(p, r.calls, |r.calls|);
    AnsweredKeeps(p, t, Entry(t, r), Crowded(r, owned), owned, |owned|);
  }

  ghost predicate Kept(p: Setup, s: Loop) {
    BodyOk(p, s, []) && LimitsOk(p, s) && |s.sent| == s.rounds
  }

  /** What a finished run leaves behind. */
  ghost predicate Completed(p: Setup, s: Loop, last: seq<Item>) {
    BodyOk(p, s, last) && LimitsOk(p, s) && |s.sent| <= s.rounds <= |s.sent| + 1
  }

  ghost predicate TurnKept(p: Setup, t: Turn) {
    match t
    case Continue(s) => Kept(p, s)
    case Finish(s, last) => Completed(p, s, last)
    case Fail => true
  }

  lemma TurnedKeeps(p: Setup, s: Loop, r: Round)
    requires Kept(p, s)
    ensures TurnKept(p, Turned(p, s, r)) && (Turned(p, s, r).Continue? ==> Turned(p, s, r).loop.rounds == s.rounds + 1)
    ensures !Turned(p, s, r).Fail? && Closed(p, s) ==> Closed(p, Turned(p, s, r).loop)
  {
    hide Executed, LimitsOk, Base, Select, Offered, AddedTokens;
    ObservedKeeps(p, s, r);
    var t := Observed(s, r);
    var owned := Owned(p, r);
    if owned != [] && Executed(p, t, r, owned).Some? {
      ExecutedBody(p, t, r, owned);
      ExecutedLimits(p, t, r, owned);
      ExecutedSends(p, t, r, owned);
      DispatchKeeps(p, Executed(p, t, r, owned).value);
    }
  }

  lemma ExecutedSends(p: Setup, s: Loop, r: Round, owned: seq<Call>)
    requires Ready(p) && Executed(p, s, r, owned).Some?
    ensures Executed(p, s, r, owned).value.sent == s.sent
  {
  }

  lemma DispatchKeeps(p: Setup, s: Loop)
    requires BodyOk(p, s, []) && LimitsOk(p, s)
    ensures BodyOk(p, Dispatch(s), []) && LimitsOk(p, Dispatch(s)) && Closed(p, Dispatch(s)) == Closed(p, s)
  {
    hide Base;
    assert s.body + [] == s.body;
  }

  lemma {:induction false} RunKeeps(p: Setup, s: Loop, replies: seq<Round>)
    requires Kept(p, s)
    ensures TurnKept(p, Run(p, s, replies))
    ensures Run(p, s, replies).Continue? ==> Run(p, s, replies).loop.rounds == s.rounds + |replies|
    ensures !Run(p, s, replies).Fail? && Closed(p, s) ==> Closed(p, Run(p, s, replies).loop)
    decreases |replies|
  {
    hide Kept, Completed, Turned, Closed;
    assert Ready(p) by { KeptIsReady(p, s); }
    if replies != [] {
      TurnedKeeps(p, s, replies[0]);
      var t := Turned(p, s, replies[0]);
      if t.Continue? {
        RunKeeps(p, t.loop, replies[1..]);
      }
    }
  }

  lemma KeptIsReady(p: Setup, s: Loop)
    requires Kept(p, s)
    ensures Ready(p)
  {
  }

  lemma BeginKept(p: Setup)
    requires Ready(p)
    ensures Kept(p, Begin(p))
  {
    assert Begin(p).body + [] == Base(p, None) + [];
  }

  /** Whatever the model and the tools answer, every body sent upstream is the base (the prepared history,
      or its cut after a window reset) followed by the transcript; and when the request ends, the same
      holds of its last body and output. */
  lemma TranscriptIsExact(p: Setup, replies: seq<Round>)
    requires Ready(p)
    ensures var t := Run(p, Begin(p), replies);
            !t.Fail? ==> forall i :: 0 <= i < |t.loop.sent| ==>
              t.loop.sent[i].body == Base(p, t.loop.sent[i].window) + t.loop.sent[i].transcript
    ensures var t := Run(p, Begin(p), replies);
            t.Finish? ==> t.loop.body + t.last == Base(p, t.loop.window) + t.loop.transcript
  {
    hide Base, Run, Begin;
    BeginKept(p);
    RunKeeps(p, Begin(p), replies);
  }

  /** Whatever the model answers: at most one round is refused, no gateway call starts once a limit is
      reached, and the limits bound the rounds. */
  lemma RoundsAreBounded(p: Setup, replies: seq<Round>)
    requires Ready(p)
    ensures var t := Run(p, Begin(p), replies);
            !t.Fail? ==>
              && t.loop.refusals <= 1
              && (forall i :: 0 <= i < |t.loop.started| ==> Open(p, t.loop.started[i]))
              && (p.maxRounds > 0 ==> t.loop.rounds <= p.maxRounds + 1)
              && (p.budget > 0 ==> t.loop.rounds <= p.budget + 1)
              && (p.closed ==> t.loop.rounds <= 1 && t.loop.started == [])
  {
    hide Run, Begin, Base;
    BeginKept(p);
    RunKeeps(p, Begin(p), replies);
    var t := Run(p, Begin(p), replies);
    assert !t.Fail? && p.closed && t.loop.started != [] ==> Open(p, t.loop.started[0]);
  }

  /** Under either limit every request ends: after one reply more than the limit and the refused round
      account for, the loop waits for no other. */
  lemma RequestEnds(p: Setup, replies: seq<Round>)
    requires Ready(p)
    requires (p.maxRounds > 0 && |replies| > p.maxRounds + 1) || (p.budget > 0 && |replies| > p.budget + 1)
    ensures !Run(p, Begin(p), replies).Continue?
  {
    BeginKept(p);
    assert Begin(p).rounds == 0;
    hide Run, Begin, Base;
    RunKeeps(p, Begin(p), replies);
    RoundsAreBounded(p, replies);
  }
}
