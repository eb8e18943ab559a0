/**
 What a capture document holds and how a request moves it (`CapturePipeline` in capture.py).

 Capturing a message depends on the tool results around it: a call is kept only when its
 result is in the same segment. Everything here is proved for that dependent form.
 */
module CaptureTurns {
  import opened Basics
  import opened Anchors

  datatype ToolPart = ToolPart(id: string, name: string, input: string, output: string)
  datatype Captured = Captured(role: Role, text: string, tools: seq<ToolPart>, source: Anchor)
  datatype Turn = Turn(anchor: Anchor, messages: seq<Captured>, continued: bool,
                       confirmed: bool, ready: int)
  datatype Retained = Retained(anchor: Anchor, count: nat)
  datatype Archive = Archive(terminal: bool, nextCheck: int)
  datatype Failure = Failure(attempts: nat, keyRevoked: bool, retryAt: Option<int>)
  datatype Capture = Capture(session: nat, delivered: Option<Anchor>, pending: seq<Turn>,
                             retained: seq<Retained>, archive: Option<Archive>,
                             error: Option<Failure>, idle: bool, previous: seq<nat>,
                             request: Option<Anchor>)

  const MAX_PREVIOUS := 5

  // ---------------------------------------------------------------- capture_messages

  function AddAnswers(results: map<string, string>, answers: seq<Answer>): map<string, string> {
    if answers == [] then results
    else AddAnswers(results, answers[..|answers| - 1])[Last(answers).id := Last(answers).output]
  }

  function AnswersIn(m: Message): seq<Answer> {
    if m.Said? then m.answers else []
  }

  /** The tool results in messages[i:j]; a later result for the same call wins. */
  function Results(ms: seq<Message>, i: nat, j: nat): map<string, string>
    requires j <= |ms|
  {
    if i >= j then map[] else AddAnswers(Results(ms, i, j - 1), AnswersIn(ms[j - 1]))
  }

  /** The calls whose results are at hand, in call order. */
  function ToolsOf(calls: seq<Call>, results: map<string, string>): seq<ToolPart> {
    if calls == [] then []
    else
      var c := Last(calls);
      ToolsOf(calls[..|calls| - 1], results) +
      (if c.id in results then [ToolPart(c.id, c.name, c.input, results[c.id])] else [])
  }

  function CaptureOne(m: Message, anchor: Option<Anchor>, results: map<string, string>): Option<Captured>
    requires Anchored(m) ==> anchor.Some?
  {
    if !Eligible(m) || (m.text == "" && ToolsOf(m.calls, results) == []) then None
    else Some(Captured(if m.role == NoRole then Assistant else m.role, m.text,
                       ToolsOf(m.calls, results), anchor.value))
  }

  ghost predicate Aligned(ms: seq<Message>, chain: seq<Option<Anchor>>) {
    |ms| == |chain| && forall i :: 0 <= i < |ms| && Anchored(ms[i]) ==> chain[i].Some?
  }

  /** What messages[i:j] give with the results at hand. */
  function CaptureRange(ms: seq<Message>, chain: seq<Option<Anchor>>, i: nat, j: nat,
                        results: map<string, string>): seq<Captured>
    requires Aligned(ms, chain) && j <= |ms|
  {
    if i >= j then []
    else
      var before := CaptureRange(ms, chain, i, j - 1, results);
      match CaptureOne(ms[j - 1], chain[j - 1], results)
      case None => before
      case Some(c) => before + [c]
  }

  /** `capture_messages(messages[begin:end], chain[begin:end])`, loop by loop. */
  method CaptureMessages(messages: seq<Message>, chain: seq<Option<Anchor>>, begin: nat, end: nat)
    returns (output: seq<Captured>)
    requires Aligned(messages, chain) && begin <= end <= |messages|
    ensures output == CaptureRange(messages, chain, begin, end, Results(messages, begin, end))
  {
    hide ToolsOf, AnswersIn;
    var results: map<string, string> := map[];
    for i := begin to end
      invariant results == Results(messages, begin, i)
    {
      var answers := AnswersIn(messages[i]);
      ghost var before := results;
      for k := 0 to |answers|
        invariant results == AddAnswers(before, answers[..k])
      {
        assert answers[..k + 1][..k] == answers[..k];
        results := results[answers[k].id := answers[k].output];
      }
      assert answers[..|answers|] == answers;
    }
    output := [];
    for i := begin to end
      invariant output == CaptureRange(messages, chain, begin, i, results)
    {
      if Eligible(messages[i]) {
        var tools := ToolsOf(messages[i].calls, results);
        if messages[i].text != "" || tools != [] {
          var role := if messages[i].role == NoRole then Assistant else messages[i].role;
          output := output + [Captured(role, messages[i].text, tools, chain[i].value)];
        }
      }
    }
  }

  // ---------------------------------------------------------------- turns and advance

  /** The first real user message in [i, stop), or `stop`. */
  function NextUser(ms: seq<Message>, i: nat, stop: nat): (r: nat)
    requires i <= stop <= |ms|
    ensures i <= r <= stop
    ensures r < stop ==> IsUser(ms[r])
    ensures forall k :: i <= k < r ==> !IsUser(ms[k])
    decreases stop - i
  {
    if i == stop || IsUser(ms[i]) then i else NextUser(ms, i + 1, stop)
  }

  function Segment(ms: seq<Message>, chain: seq<Option<Anchor>>, i: nat, j: nat): seq<Captured>
    requires Aligned(ms, chain) && i <= j <= |ms|
  {
    CaptureRange(ms, chain, i, j, Results(ms, i, j))
  }

  /** `turns`: messages[start:stop] cut at real user messages; segments with nothing to keep go. */
  function Turns(ms: seq<Message>, chain: seq<Option<Anchor>>, start: nat, stop: nat,
                 confirmed: bool, ready: int): seq<Turn>
    requires Aligned(ms, chain) && stop <= |ms|
    decreases stop - start
  {
    if start >= stop then []
    else
      var next := NextUser(ms, start + 1, stop);
      var captured := Segment(ms, chain, start, next);
      var rest := Turns(ms, chain, next, stop, confirmed, ready);
      if captured == [] then rest
      else [Turn(Last(captured).source, captured, !IsUser(ms[start]), confirmed,
                 if confirmed then 0 else ready)] + rest
  }

  /** The last index below `n` of an anchor in a chain, or -1. */
  function Find(chain: seq<Option<Anchor>>, n: nat, a: Anchor): (r: int)
    requires n <= |chain|
    ensures -1 <= r < n
    ensures r >= 0 ==> chain[r] == Some(a)
  {
    if n == 0 then -1
    else if chain[n - 1] == Some(a) then n - 1
    else Find(chain, n - 1, a)
  }

  /** The `positions` dictionary: the index of an anchor, or -1 when it is missing. */
  function Position(chain: seq<Option<Anchor>>, a: Anchor): (r: int)
    ensures -1 <= r < |chain|
    ensures r >= 0 ==> chain[r] == Some(a)
  {
    Find(chain, |chain|, a)
  }

  /** The latest position a queue reaches in a chain, or -1. */
  function Reach(chain: seq<Option<Anchor>>, turns: seq<Turn>): (r: int)
    ensures -1 <= r < |chain|
  {
    if turns == [] then -1 else Max(Position(chain, turns[0].anchor), Reach(chain, turns[1..]))
  }

  predicate Known(chain: seq<Option<Anchor>>, turns: seq<Turn>) {
    forall t :: t in turns ==> Position(chain, t.anchor) >= 0
  }

  function Confirmed(turns: seq<Turn>): (r: seq<Turn>)
    ensures |r| <= |turns|
  {
    if turns == [] then []
    else if turns[0].confirmed then [turns[0]] + Confirmed(turns[1..])
    else Confirmed(turns[1..])
  }

  function DeliveredPosition(v: Capture, chain: seq<Option<Anchor>>): (r: int)
    ensures -1 <= r < |chain|
  {
    if v.delivered.Some? then Position(chain, v.delivered.value) else -1
  }

  /** `lineage`: where earlier messages went, the current session first once it has received any. */
  function Lineage(v: Capture): seq<nat> {
    if v.delivered.Some? then [v.session] + v.previous else v.previous
  }

  /** `new_capture`; `uuid` is the new session's UUID. */
  function NewCapture(uuid: nat, was: Option<Capture>): Capture {
    var known := if was.Some? then Lineage(was.value) else [];
    Capture(uuid, None, [], [], None, None, false,
            if |known| <= MAX_PREVIOUS then known else known[..MAX_PREVIOUS], None)
  }

  /** Whether `advance` must leave the current OpenViking session. */
  predicate Restarts(v: Capture, chain: seq<Option<Anchor>>, user: nat) {
    || (v.delivered.Some? && DeliveredPosition(v, chain) < 0)
    || !Known(chain, Confirmed(v.pending))
    || (v.delivered.Some? && v.idle && DeliveredPosition(v, chain) >= user)
  }

  /** The document `advance` continues: the current one, or a new session that remembers it. */
  function Base(v: Capture, chain: seq<Option<Anchor>>, user: nat, uuid: nat): Capture {
    if Restarts(v, chain, user) then NewCapture(uuid, Some(v)).(request := v.request) else v
  }

  /** The first position after everything delivered or confirmed. */
  function Start(v: Capture, chain: seq<Option<Anchor>>): nat {
    1 + Max(DeliveredPosition(v, chain), Reach(chain, Confirmed(v.pending)))
  }

  function Split(v: Capture, chain: seq<Option<Anchor>>, user: nat, stop: nat): nat {
    Min(Max(Start(v, chain), user), stop)
  }

  /** The segments before the user's message, confirmed, and those from it on. */
  function Sure(v: Capture, ms: seq<Message>, chain: seq<Option<Anchor>>, user: nat, stop: nat): seq<Turn>
    requires Aligned(ms, chain) && stop <= |ms|
  {
    Turns(ms, chain, Start(v, chain), Split(v, chain, user, stop), true, 0)
  }

  function Tail(v: Capture, ms: seq<Message>, chain: seq<Option<Anchor>>, user: nat, stop: nat,
                confirmed: bool, ready: int): seq<Turn>
    requires Aligned(ms, chain) && stop <= |ms|
  {
    Turns(ms, chain, Split(v, chain, user, stop), stop, confirmed, ready)
  }

  /** `advance`: the new document and the segments it added. */
  function Advance(v: Capture, ms: seq<Message>, chain: seq<Option<Anchor>>, user: nat, stop: nat,
                   confirmed: bool, ready: int, uuid: nat): (Capture, seq<Turn>)
    requires Aligned(ms, chain) && stop <= |ms|
  {
    var base := Base(v, chain, user, uuid);
    var added := Sure(base, ms, chain, user, stop) + Tail(base, ms, chain, user, stop, confirmed, ready);
    (base.(pending := Confirmed(base.pending) + added), added)
  }

  // ---------------------------------------------------------------- advance twice is advance once

  lemma ChainAligned(prev: Anchor, ms: seq<Message>)
    ensures Aligned(ms, Chain(prev, ms))
  {
    forall i | 0 <= i < |ms| && Anchored(ms[i]) ensures Chain(prev, ms)[i].Some? {
      ChainAt(prev, ms, i);
    }
  }

  /** Every anchor is found where it stands: none occurs twice. */
  ghost predicate Distinct(chain: seq<Option<Anchor>>) {
    forall i :: 0 <= i < |chain| && chain[i].Some? ==> Position(chain, chain[i].value) == i
  }

  lemma {:induction false} FindHits(chain: seq<Option<Anchor>>, n: nat, i: nat)
    requires i < n <= |chain| && chain[i].Some?
    ensures Find(chain, n, chain[i].value) >= i
  {
    if i < n - 1 {
      FindHits(chain, n - 1, i);
    }
  }

  lemma ChainDistinct(ms: seq<Message>)
    ensures Distinct(Chain(Seed, ms))
  {
    var chain := Chain(Seed, ms);
    forall i | 0 <= i < |chain| && chain[i].Some? ensures Position(chain, chain[i].value) == i {
      FindHits(chain, |chain|, i);
      if Position(chain, chain[i].value) > i {
        ChainDeepens(Seed, ms, i, Position(chain, chain[i].value));
      }
    }
  }

  lemma {:induction false} AnswersKeys(r: map<string, string>, answers: seq<Answer>)
    ensures AddAnswers(r, answers).Keys == r.Keys + set a | a in answers :: a.id
    decreases |answers|
  {
    if answers != [] {
      AnswersKeys(r, answers[..|answers| - 1]);
      assert answers == answers[..|answers| - 1] + [Last(answers)];
    }
  }

  /** A shorter segment has no results that a longer one around it lacks. */
  lemma {:induction false} ResultsShrink(ms: seq<Message>, i: nat, j: nat, k: nat, l: nat)
    requires i <= k && l <= j <= |ms|
    ensures Results(ms, k, l).Keys <= Results(ms, i, j).Keys
    decreases j
  {
    if l < j && k < l {
      ResultsShrink(ms, i, j - 1, k, l);
      AnswersKeys(Results(ms, i, j - 1), AnswersIn(ms[j - 1]));
    } else if k < l {
      ResultsShrink(ms, i, j - 1, k, l - 1);
      AnswersKeys(Results(ms, i, j - 1), AnswersIn(ms[j - 1]));
      AnswersKeys(Results(ms, k, l - 1), AnswersIn(ms[l - 1]));
    }
  }

  lemma {:induction false} ToolsShrink(calls: seq<Call>, fewer: map<string, string>, more: map<string, string>)
    requires fewer.Keys <= more.Keys && ToolsOf(calls, more) == []
    ensures ToolsOf(calls, fewer) == []
    decreases |calls|
  {
    if calls != [] {
      ToolsShrink(calls[..|calls| - 1], fewer, more);
    }
  }

  /** A user's message is always captured, whatever results are at hand. */
  lemma UserCaptured(m: Message, a: Option<Anchor>, results: map<string, string>)
    requires IsUser(m) && a.Some?
    ensures CaptureOne(m, a, results).Some? && CaptureOne(m, a, results).value.source == a.value
  {
  }

  /** Nothing in [i, j) is captured with the results at hand. */
  ghost predicate Silent(ms: seq<Message>, chain: seq<Option<Anchor>>, i: nat, j: nat,
                         results: map<string, string>)
    requires Aligned(ms, chain) && j <= |ms|
  {
    forall k :: i <= k < j ==> CaptureOne(ms[k], chain[k], results).None?
  }

  lemma {:induction false} SilentCapture(ms: seq<Message>, chain: seq<Option<Anchor>>, i: nat, j: nat,
                                         results: map<string, string>)
    requires Aligned(ms, chain) && j <= |ms|
    ensures CaptureRange(ms, chain, i, j, results) == [] <==> Silent(ms, chain, i, j, results)
    decreases j
  {
    if i < j {
      SilentCapture(ms, chain, i, j - 1, results);
    }
  }

  /** What was silent in a segment stays silent when only a part of it is captured again. */
  lemma {:induction false} SilenceShrinks(ms: seq<Message>, chain: seq<Option<Anchor>>, i: nat, j: nat,
                                          k: nat)
    requires Aligned(ms, chain) && i <= k <= j <= |ms|
    requires Silent(ms, chain, k, j, Results(ms, i, j))
    ensures Silent(ms, chain, k, j, Results(ms, k, j))
  {
    ResultsShrink(ms, i, j, k, j);
    forall x | k <= x < j ensures CaptureOne(ms[x], chain[x], Results(ms, k, j)).None? {
      assert CaptureOne(ms[x], chain[x], Results(ms, i, j)).None?;
      if Eligible(ms[x]) {
        ToolsShrink(ms[x].calls, Results(ms, k, j), Results(ms, i, j));
      }
    }
  }

  lemma {:induction false} SilentTurns(ms: seq<Message>, chain: seq<Option<Anchor>>, i: nat, j: nat,
                                       confirmed: bool, ready: int)
    requires Aligned(ms, chain) && i <= j <= |ms|
    requires Silent(ms, chain, i, j, Results(ms, i, j))
    ensures Turns(ms, chain, i, j, confirmed, ready) == []
  {
    if i < j {
      var next := NextUser(ms, i + 1, j);
      assert next == j by {
        if next < j {
          UserCaptured(ms[next], chain[next], Results(ms, i, j));
        }
      }
      SilentCapture(ms, chain, i, j, Results(ms, i, j));
    }
  }

  /** The last captured message of a segment: where it is, and the silence after it. */
  lemma {:induction false} LastCaptured(ms: seq<Message>, chain: seq<Option<Anchor>>, i: nat, j: nat,
                                        results: map<string, string>) returns (p: nat)
    requires Aligned(ms, chain) && j <= |ms|
    requires CaptureRange(ms, chain, i, j, results) != []
    ensures i <= p < j && chain[p] == Some(Last(CaptureRange(ms, chain, i, j, results)).source)
    ensures Silent(ms, chain, p + 1, j, results)
    decreases j
  {
    if CaptureOne(ms[j - 1], chain[j - 1], results).Some? {
      p := j - 1;
    } else {
      p := LastCaptured(ms, chain, i, j - 1, results);
    }
  }

  lemma SegmentEnd(ms: seq<Message>, chain: seq<Option<Anchor>>, i: nat, j: nat) returns (p: nat)
    requires Aligned(ms, chain) && Distinct(chain) && i <= j <= |ms|
    requires Segment(ms, chain, i, j) != []
    ensures i <= p < j && Position(chain, Last(Segment(ms, chain, i, j)).source) == p
    ensures Silent(ms, chain, p + 1, j, Results(ms, p + 1, j))
  {
    hide CaptureOne, CaptureRange, Results, Silent, Find, Position;
    p := LastCaptured(ms, chain, i, j, Results(ms, i, j));
    assert chain[p].Some? && Position(chain, chain[p].value) == p;
    SilenceShrinks(ms, chain, i, j, p + 1);
  }

  /** Where a run of turns ends: its last anchor's position, after which nothing is left to queue. */
  lemma {:induction false} TurnsReach(ms: seq<Message>, chain: seq<Option<Anchor>>, start: nat,
                                      stop: nat, confirmed: bool, ready: int) returns (p: nat)
    requires stop <= |ms| && Aligned(ms, chain) && Distinct(chain)
    requires Turns(ms, chain, start, stop, confirmed, ready) != []
    ensures p == Reach(chain, Turns(ms, chain, start, stop, confirmed, ready))
    ensures Known(chain, Turns(ms, chain, start, stop, confirmed, ready))
    ensures start <= p < stop && Silent(ms, chain, p + 1, stop, Results(ms, p + 1, stop))
    decreases stop - start
  {
    hide Segment, Silent, Position, Distinct, Aligned, IsUser, Results, CaptureOne;
    var turns := Turns(ms, chain, start, stop, confirmed, ready);
    var next := NextUser(ms, start + 1, stop);
    var captured := Segment(ms, chain, start, next);
    var rest := Turns(ms, chain, next, stop, confirmed, ready);
    var q: int := -1;
    if captured != [] {
      q := SegmentEnd(ms, chain, start, next);
      assert turns[1..] == rest;
    }
    if next < stop {
      UserStartsTurn(ms, chain, next, stop, confirmed, ready);
      p := TurnsReach(ms, chain, next, stop, confirmed, ready);
    } else {
      p := q;
    }
  }

  lemma UserStartsTurn(ms: seq<Message>, chain: seq<Option<Anchor>>, start: nat, stop: nat,
                       confirmed: bool, ready: int)
    requires Aligned(ms, chain) && start < stop <= |ms| && IsUser(ms[start])
    ensures Turns(ms, chain, start, stop, confirmed, ready) != []
  {
    var next := NextUser(ms, start + 1, stop);
    var results := Results(ms, start, next);
    UserCaptured(ms[start], chain[start], results);
    SilentCapture(ms, chain, start, next, results);
  }

  lemma {:induction false} ConfirmedConcat(a: seq<Turn>, b: seq<Turn>)
    ensures Confirmed(a + b) == Confirmed(a) + Confirmed(b)
  {
    if a == [] {
      assert a + b == b;
    } else {
      assert (a + b)[1..] == a[1..] + b;
      ConfirmedConcat(a[1..], b);
    }
  }

  lemma {:induction false} ConfirmedSame(turns: seq<Turn>, confirmed: bool)
    requires forall t :: t in turns ==> t.confirmed == confirmed
    ensures Confirmed(turns) == if confirmed then turns else []
  {
    if turns != [] {
      ConfirmedSame(turns[1..], confirmed);
    }
  }

  lemma {:induction false} ConfirmedTwice(turns: seq<Turn>)
    ensures Confirmed(Confirmed(turns)) == Confirmed(turns)
    ensures forall t :: t in Confirmed(turns) ==> t.confirmed && t in turns
  {
    if turns != [] {
      ConfirmedTwice(turns[1..]);
    }
  }

  lemma {:induction false} TurnsFlag(ms: seq<Message>, chain: seq<Option<Anchor>>, start: nat, stop: nat,
                                     confirmed: bool, ready: int)
    requires Aligned(ms, chain) && stop <= |ms|
    ensures forall t :: t in Turns(ms, chain, start, stop, confirmed, ready) ==>
              t.confirmed == confirmed && t.ready == if confirmed then 0 else ready
    decreases stop - start
  {
    if start < stop {
      TurnsFlag(ms, chain, NextUser(ms, start + 1, stop), stop, confirmed, ready);
    }
  }

  lemma {:induction false} ReachConcat(chain: seq<Option<Anchor>>, a: seq<Turn>, b: seq<Turn>)
    ensures Reach(chain, a + b) == Max(Reach(chain, a), Reach(chain, b))
  {
    if a == [] {
      assert a + b == b;
    } else {
      assert (a + b)[1..] == a[1..] + b;
      ReachConcat(chain, a[1..], b);
    }
  }

  /** Where the second pass starts, and that the stretch it would queue again is exhausted. */
  lemma Requeue(ms: seq<Message>, chain: seq<Option<Anchor>>, start: nat, stop: nat, confirmed: bool,
                ready: int, from: nat)
    requires Aligned(ms, chain) && Distinct(chain) && stop <= |ms|
    requires from == Max(start, Reach(chain, Turns(ms, chain, start, stop, confirmed, ready)) + 1)
    ensures var turns := Turns(ms, chain, start, stop, confirmed, ready);
            Known(chain, turns) && (turns != [] ==> start <= Reach(chain, turns) < stop)
    ensures Turns(ms, chain, from, stop, confirmed, ready) == []
  {
    hide Segment, Silent, Position, Distinct, Aligned, Known, Results;
    EmptyQueue(chain);
    NoTurns(ms, chain, from, stop, confirmed, ready);
    if Turns(ms, chain, start, stop, confirmed, ready) != [] {
      var p := TurnsReach(ms, chain, start, stop, confirmed, ready);
      SilentTurns(ms, chain, p + 1, stop, confirmed, ready);
    }
  }

  /** What a queued history leaves confirmed. */
  lemma KeptConfirmed(base: Capture, ms: seq<Message>, chain: seq<Option<Anchor>>, user: nat, stop: nat,
                      confirmed: bool, ready: int)
    requires Aligned(ms, chain) && stop <= |ms|
    ensures var sure, tail := Sure(base, ms, chain, user, stop), Tail(base, ms, chain, user, stop, confirmed, ready);
            && Confirmed(sure + tail) == sure + (if confirmed then tail else [])
            && Confirmed(Confirmed(base.pending) + (sure + tail))
            == Confirmed(base.pending) + (sure + (if confirmed then tail else []))
  {
    hide Turns, Confirmed;
    var held, start, split := Confirmed(base.pending), Start(base, chain), Split(base, chain, user, stop);
    var sure, tail := Sure(base, ms, chain, user, stop), Tail(base, ms, chain, user, stop, confirmed, ready);
    TurnsFlag(ms, chain, start, split, true, 0);
    TurnsFlag(ms, chain, split, stop, confirmed, ready);
    ConfirmedTwice(base.pending);
    ConfirmedSame(sure, true);
    ConfirmedSame(tail, confirmed);
    ConfirmedConcat(sure, tail);
    ConfirmedConcat(held, sure + tail);
  }

  /** Queuing twice from a document this history does not restart. */
  lemma QueueTwice(base: Capture, ms: seq<Message>, chain: seq<Option<Anchor>>, user: nat, stop: nat,
                   confirmed: bool, ready: int, once: Capture)
    requires Aligned(ms, chain) && Distinct(chain) && stop <= |ms|
    requires !Restarts(base, chain, user)
    requires once == base.(pending := Confirmed(base.pending) + (Sure(base, ms, chain, user, stop)
                             + Tail(base, ms, chain, user, stop, confirmed, ready)))
    ensures !Restarts(once, chain, user)
    ensures Sure(once, ms, chain, user, stop) == []
    ensures Tail(once, ms, chain, user, stop, confirmed, ready)
         == if confirmed then [] else Tail(base, ms, chain, user, stop, confirmed, ready)
  {
    hide Turns, Confirmed, Position, Find, Distinct, Aligned, Known, Reach;
    var held, start, split := Confirmed(base.pending), Start(base, chain), Split(base, chain, user, stop);
    var sure, tail := Sure(base, ms, chain, user, stop), Tail(base, ms, chain, user, stop, confirmed, ready);
    var kept := if confirmed then tail else [];
    KeptConfirmed(base, ms, chain, user, stop, confirmed, ready);
    ReachConcat(chain, sure, kept);
    ReachConcat(chain, held, sure + kept);
    KnownConcat(chain, held, sure + kept);
    KnownConcat(chain, sure, kept);
    EmptyQueue(chain);
    Requeue(ms, chain, start, split, true, 0, Max(start, Reach(chain, sure) + 1));
    Requeue(ms, chain, split, stop, confirmed, ready, Max(split, Reach(chain, tail) + 1));
    assert Start(once, chain) == Max(start, Max(Reach(chain, sure), Reach(chain, kept)) + 1);
    NoTurns(ms, chain, Start(once, chain), Split(once, chain, user, stop), true, 0);
    NoTurns(ms, chain, Split(once, chain, user, stop), stop, confirmed, ready);
  }

  lemma EmptyQueue(chain: seq<Option<Anchor>>)
    ensures Known(chain, []) && Reach(chain, []) == -1
  {
  }

  lemma NoTurns(ms: seq<Message>, chain: seq<Option<Anchor>>, start: nat, stop: nat, confirmed: bool,
                ready: int)
    requires Aligned(ms, chain) && stop <= |ms|
    ensures start >= stop ==> Turns(ms, chain, start, stop, confirmed, ready) == []
  {
  }

  lemma KnownConcat(chain: seq<Option<Anchor>>, a: seq<Turn>, b: seq<Turn>)
    ensures Known(chain, a + b) <==> Known(chain, a) && Known(chain, b)
  {
    hide Position;
    if Known(chain, a + b) {
      forall t | t in a ensures Position(chain, t.anchor) >= 0 { assert t in a + b; }
      forall t | t in b ensures Position(chain, t.anchor) >= 0 { assert t in a + b; }
    }
  }

  lemma AdvanceRepeats(v: Capture, ms: seq<Message>, chain: seq<Option<Anchor>>, user: nat, stop: nat,
                       confirmed: bool, ready: int, uuid: nat, other: nat)
    requires Aligned(ms, chain) && Distinct(chain) && stop <= |ms|
    ensures var (once, added) := Advance(v, ms, chain, user, stop, confirmed, ready, uuid);
            var (twice, again) := Advance(once, ms, chain, user, stop, confirmed, ready, other);
            && twice == once
            && again == added[|Confirmed(added)|..]
            && (confirmed ==> again == [])
  {
    hide Turns, Confirmed, Position, Distinct, Aligned, Known, Reach, Sure, Tail, Restarts;
    var base := Base(v, chain, user, uuid);
    var (once, added) := Advance(v, ms, chain, user, stop, confirmed, ready, uuid);
    BaseStays(v, chain, user, uuid);
    QueueTwice(base, ms, chain, user, stop, confirmed, ready, once);
    KeptConfirmed(base, ms, chain, user, stop, confirmed, ready);
  }

  /** Queuing a history that is already queued changes nothing: the document stays as it is, and
      only the unconfirmed tail counts as added again. */
  lemma AdvanceTwice(v: Capture, ms: seq<Message>, chain: seq<Option<Anchor>>, user: nat, stop: nat,
                     confirmed: bool, ready: int, uuid: nat, other: nat)
    requires chain == Chain(Seed, ms) && Aligned(ms, chain) && stop <= |ms|
    ensures var (once, added) := Advance(v, ms, chain, user, stop, confirmed, ready, uuid);
            var (twice, again) := Advance(once, ms, chain, user, stop, confirmed, ready, other);
            && twice == once
            && again == added[|Confirmed(added)|..]
            && (confirmed ==> again == [])
  {
    hide Advance, Chain, Confirmed, Distinct, Aligned;
    ChainDistinct(ms);
    AdvanceRepeats(v, ms, chain, user, stop, confirmed, ready, uuid, other);
  }

  lemma BaseStays(v: Capture, chain: seq<Option<Anchor>>, user: nat, uuid: nat)
    ensures !Restarts(Base(v, chain, user, uuid), chain, user)
  {
  }
}
