/**
 When the worker's merge (`save` and `remaining` in capture.py) drops exactly what was written.

 A conflict drops the queue up to and including the written message. A call is captured only once its
 result has arrived, so a queue rebuilt during the write can hold other captures before the written
 message than the written segment did: those are dropped unwritten.
 */
module CaptureMerge {
  import opened Basics
  import opened Anchors
  import opened CaptureTurns
  import opened CaptureOrder
  import opened CaptureSegments

  // ---------------------------------------------------------------- queues and what the merge leaves of them

  lemma {:induction false} TipIndex(ms: seq<Message>, j: nat, c: Anchor) returns (k: nat)
    requires j <= |ms| && c.Link? && Continues(c, Tip(Seed, ms[..j]))
    ensures k < j && Anchored(ms[k]) && Tip(Seed, ms[..k + 1]) == c && Chain(Seed, ms)[k] == Some(c)
    decreases j
  {
    hide Tip, Chain;
    if j == 0 {
      assert Tip(Seed, ms[..0]) == Seed by { NoMessages(ms); }
    } else {
      assert ms[..j][..j - 1] == ms[..j - 1];
      TipDropLast(Seed, ms[..j]);
      if Anchored(ms[j - 1]) && Tip(Seed, ms[..j]) == c {
        k := j - 1;
        ChainAt(Seed, ms, k);
      } else {
        k := TipIndex(ms, j - 1, c);
      }
    }
  }

  lemma NoMessages(ms: seq<Message>)
    ensures Tip(Seed, ms[..0]) == Seed
  {
  }

  /** The queue that `advance` builds on a document without confirmed segments. */
  lemma QueueIsSwept(v: Capture, ms: seq<Message>, chain: seq<Option<Anchor>>, user: nat, stop: nat, confirmed: bool,
                     ready: int, uuid: nat)
    requires chain == Chain(Seed, ms) && CaptureTurns.Aligned(ms, chain) && user < |ms| && IsUser(ms[user]) && stop <= |ms|
    requires !Restarts(v, chain, user) && Confirmed(v.pending) == []
    ensures var q := Flatten(Advance(v, ms, chain, user, stop, confirmed, ready, uuid).0.pending);
            var tip := Tip(Seed, ms[..stop]);
            && (Start(v, chain) <= stop ==> Continues(From(v), tip) && q == Swept(From(v), tip))
            && (Start(v, chain) > stop ==> q == [])
  {
    hide Chain, Tip, Turns, Position, Swept, Continues, CaptureTurns.Aligned, IsUser, Flatten;
    var start, split := Start(v, chain), Split(v, chain, user, stop);
    EmptyQueue(chain);
    StartIsFrom(v, ms, chain, user);
    var sure, tail := Turns(ms, chain, start, split, true, 0), Turns(ms, chain, split, stop, confirmed, ready);
    assert [] + (sure + tail) == sure + tail;
    FlattenConcat(sure, tail);
    if start <= stop {
      TurnsAreSwept(ms, chain, start, split, true, 0);
      TurnsAreSwept(ms, chain, split, stop, confirmed, ready);
      TipContinues(ms, start, stop);
      SweptNothing(Tip(Seed, ms[..start]));
      SweptNothing(Tip(Seed, ms[..stop]));
      if start < split < stop {
        UserOpens(ms, split, stop);
        SweptSplits(From(v), Tip(Seed, ms[..split + 1]), Tip(Seed, ms[..stop]));
      }
    } else {
      NoTurns(ms, chain, start, split, true, 0);
      NoTurns(ms, chain, split, stop, confirmed, ready);
      EmptyFlat();
    }
  }

  lemma StartIsFrom(v: Capture, ms: seq<Message>, chain: seq<Option<Anchor>>, user: nat)
    requires chain == Chain(Seed, ms) && !Restarts(v, chain, user) && Confirmed(v.pending) == []
    ensures Start(v, chain) <= |ms| && Tip(Seed, ms[..Start(v, chain)]) == From(v)
  {
    hide Chain, Tip;
    EmptyQueue(chain);
    var p := DeliveredPosition(v, chain);
    if v.delivered.Some? {
      ChainAt(Seed, ms, p);
    } else {
      NoMessages(ms);
    }
  }

  /** In a walk no message occurs twice. */
  lemma WalkOnce(a: Anchor, q: seq<Captured>, i: nat, j: nat)
    requires Walk(a, q) && i < |q| && j < |q| && q[i] == q[j]
    ensures i == j
  {
    if i < j {
      WalkApart(a, q, i, j);
    } else if j < i {
      WalkApart(a, q, j, i);
    }
  }

  lemma WalkApart(a: Anchor, q: seq<Captured>, i: nat, j: nat)
    requires Walk(a, q) && i < j < |q|
    ensures Depth(q[i].source) < Depth(q[j].source)
  {
    hide Walk, Depth;
    assert q == q[..i + 1] + q[i + 1..];
    WalkConcat(a, q[..i + 1], q[i + 1..]);
    assert Last(q[..i + 1]) == q[i];
    WalkDeepens(q[i].source, q[i + 1..], j - i - 1);
  }

  /** Two beginnings of a walk that end with the same message are the same. */
  lemma SamePrefix(a: Anchor, q: seq<Captured>, s: seq<Captured>, t: seq<Captured>)
    requires Walk(a, q) && s <= q && t <= q && s != [] && t != [] && Last(s) == Last(t)
    ensures s == t
  {
    WalkOnce(a, q, |s| - 1, |t| - 1);
  }

  /** The merge finds the last written message and drops the written segment, no more and no less. */
  ghost predicate DropsOnly(queue: seq<Turn>, turn: seq<Captured>)
    requires turn != []
  {
    Remaining(queue, Last(turn)).Some? ==> Flatten(queue) == turn + Flatten(Remaining(queue, Last(turn)).value)
  }

  lemma DropsPrefix(a: Anchor, queue: seq<Turn>, turn: seq<Captured>)
    requires turn != [] && Walk(a, Flatten(queue))
    ensures DropsOnly(queue, turn) <==> (Last(turn) in Flatten(queue) ==> turn <= Flatten(queue))
  {
    hide Walk, Remaining;
    var before := RemainingCutsThere(queue, Last(turn));
    var q := Flatten(queue);
    if Last(turn) in q && turn <= q {
      SamePrefix(a, q, turn, before + [Last(turn)]);
    }
  }

  /** What a request may make of the queue of document `v` while it stays in its session. */
  ghost predicate RequeuedBy(v: Capture, queue: seq<Turn>, ms: seq<Message>, user: nat, stop: nat, confirmed: bool,
                             ready: int, uuid: nat)
  {
    && user < |ms| && IsUser(ms[user]) && stop <= |ms| && CaptureTurns.Aligned(ms, Chain(Seed, ms))
    && !Restarts(v, Chain(Seed, ms), user)
    && queue == Advance(v, ms, Chain(Seed, ms), user, stop, confirmed, ready, uuid).0.pending
  }

  ghost predicate Requeues(v: Capture, queue: seq<Turn>) {
    exists ms: seq<Message>, user: nat, stop: nat, confirmed: bool, ready: int, uuid: nat ::
      RequeuedBy(v, queue, ms, user, stop, confirmed, ready, uuid)
  }

  lemma RequeuedWalks(v: Capture, queue: seq<Turn>)
    requires Sound(v) && Requeues(v, queue)
    ensures Walk(From(v), Flatten(queue))
  {
    hide Chain, Walk, Flatten, Advance, Restarts;
    var ms: seq<Message>, user: nat, stop: nat, confirmed: bool, ready: int, uuid: nat :|
      RequeuedBy(v, queue, ms, user, stop, confirmed, ready, uuid);
    AdvanceWalks(v, ms, Chain(Seed, ms), user, stop, confirmed, ready, uuid);
  }

  /** A request that keeps the session keeps the confirmed segments. */
  lemma ConfirmedStays(v: Capture, queue: seq<Turn>)
    requires Sound(v) && Requeues(v, queue) && v.pending != [] && v.pending[0].confirmed
    ensures v.pending[0].messages <= Flatten(queue)
  {
    hide Chain, Walk, Turns, Restarts;
    var ms: seq<Message>, user: nat, stop: nat, confirmed: bool, ready: int, uuid: nat :|
      RequeuedBy(v, queue, ms, user, stop, confirmed, ready, uuid);
    assert queue[0] == v.pending[0];
  }

  /** From the opening of the segment up to before the written message, no call is made that the written
      message does not make too. Its own tools then tell every result that matters. */
  ghost predicate CallsShared(a: Anchor, w: Captured) {
    && Continues(a, w.source) && w.source != a && w.source.message.Said?
    && CallsOnly(Opening(a, w.source), w.source.prev, CallIds(w.source.message.calls))
  }

  /** The queue up to a message depends only on the results of its own calls. */
  lemma SharedPrefix(a: Anchor, s: Anchor, t: Anchor, w: Captured) returns (prefix: seq<Captured>)
    requires Continues(a, s) && Continues(a, t) && w in Swept(a, s) && w in Swept(a, t) && CallsShared(a, w)
    ensures prefix != [] && Last(prefix) == w && prefix <= Swept(a, s) && prefix <= Swept(a, t)
  {
    hide CaptureOne, Continues, Opening, Sweep, Answered, Swept, CallIds;
    var r := SweptAt(a, s, w);
    var q := SweptAt(a, t, w);
    var o := Opening(a, w.source);
    SweepEndsWith(o, w, r);
    SweepEndsWith(o, w, q);
    CapturedEligible(w, r);
    CaptureTells(w.source, r, q);
    forall x | Calls(o, w.source.prev, x) ensures Agree({x}, r, q) {
      assert x in CallIds(w.source.message.calls);
    }
    SweepsAgree(o, w.source.prev, r, q);
    prefix := Swept(a, o) + (Sweep(o, w.source.prev, r) + [w]);
  }

  lemma CapturedEligible(w: Captured, r: map<string, string>)
    requires w.source.Link? && CaptureOne(w.source.message, Some(w.source), r) == Some(w)
    ensures Eligible(w.source.message) && w.tools == ToolsOf(w.source.message.calls, r)
  {
  }

  // ---------------------------------------------------------------- a result that arrives late

  function Replies(tools: seq<ToolPart>): seq<Answer> {
    if tools == [] then [] else Replies(tools[..|tools| - 1]) + [Answer(Last(tools).id, Last(tools).output)]
  }

  lemma AddLast(results: map<string, string>, tools: seq<ToolPart>, t: ToolPart)
    ensures AddAnswers(results, Replies(tools + [t])) == AddAnswers(results, Replies(tools))[t.id := t.output]
  {
    assert (tools + [t])[..|tools|] == tools;
    var all := Replies(tools + [t]);
    assert all[..|all| - 1] == Replies(tools);
  }

  /** The answers a message's tools give, added call by call. */
  lemma RepliesStep(results: map<string, string>, calls: seq<Call>, r: map<string, string>)
    requires calls != []
    ensures var before := AddAnswers(results, Replies(ToolsOf(calls[..|calls| - 1], r)));
            AddAnswers(results, Replies(ToolsOf(calls, r)))
            == if Last(calls).id in r then before[Last(calls).id := r[Last(calls).id]] else before
  {
    hide AddAnswers, Replies;
    var init, c := calls[..|calls| - 1], Last(calls);
    if c.id in r {
      AddLast(results, ToolsOf(init, r), ToolPart(c.id, c.name, c.input, r[c.id]));
    } else {
      assert ToolsOf(init, r) + [] == ToolsOf(init, r);
    }
  }

  /** Answering a message's calls as its tools say gives those results and no others. */
  lemma {:induction false} RepliesGive(results: map<string, string>, calls: seq<Call>, r: map<string, string>, y: string)
    ensures var m := AddAnswers(results, Replies(ToolsOf(calls, r)));
            if y in CallIds(calls) && y in r then y in m && m[y] == r[y]
            else (y in m <==> y in results) && (y in m ==> m[y] == results[y])
    decreases |calls|
  {
    if calls != [] {
      CallIdsLast(calls);
      RepliesStep(results, calls, r);
      hide CallIds, AddAnswers, Replies, ToolsOf;
      RepliesGive(results, calls[..|calls| - 1], r, y);
    } else {
      NothingAnswered(results);
    }
  }

  const NextQuestion: Message := Said(User, false, "And now?", [], [])

  /** The results of the written message's own calls once more, and a new one for another call. */
  function LateResult(w: Captured, x: string, output: string): Message {
    Said(Tool, false, "", [], Replies(w.tools) + [Answer(x, output)])
  }

  /** The history up to the written message, a late result, and the user's next message. */
  function LateHistory(ms: seq<Message>, k: nat, w: Captured, x: string, output: string): seq<Message>
    requires k < |ms|
  {
    ms[..k + 1] + [LateResult(w, x, output), NextQuestion]
  }

  lemma LateTips(ms: seq<Message>, k: nat, w: Captured, x: string, output: string)
    requires k < |ms|
    ensures var late := LateHistory(ms, k, w, x, output);
            && |late| == k + 3 && IsUser(late[k + 2]) && late[..k + 1] == ms[..k + 1]
            && Tip(Seed, late[..k + 2]) == Link(Tip(Seed, ms[..k + 1]), LateResult(w, x, output))
  {
    var late := LateHistory(ms, k, w, x, output);
    assert late[..k + 2][..k + 1] == ms[..k + 1];
    TipDropLast(Seed, late[..k + 2]);
  }

  /** The request with that history stays in the session, and what it queues. */
  lemma LateRequeues(v: Capture, ms: seq<Message>, k: nat, w: Captured, x: string, output: string) returns (queue: seq<Turn>)
    requires Sound(v) && Confirmed(v.pending) == [] && k < |ms| && Tip(Seed, ms[..k + 1]) == w.source
    requires Continues(From(v), w.source)
    ensures Requeues(v, queue) && Continues(From(v), Link(w.source, LateResult(w, x, output)))
    ensures Flatten(queue) == Swept(From(v), Link(w.source, LateResult(w, x, output)))
  {
    hide Tip, Chain, Walk, Flatten, Swept, Continues, LateHistory, LateResult, Position, Turns, QueueOk, CaptureTurns.Aligned, IsUser;
    var late := LateHistory(ms, k, w, x, output);
    var chain := Chain(Seed, late);
    LateTips(ms, k, w, x, output);
    ChainAligned(Seed, late);
    ChainDistinct(late);
    EmptyQueue(chain);
    if v.delivered.Some? {
      var i := TipIndex(late, k + 1, From(v));
      assert Position(chain, chain[i].value) == i;
    }
    QueueIsSwept(v, late, chain, k + 2, k + 2, true, 0, 0);
    StepBeyond(From(v), w.source, LateResult(w, x, output));
    queue := Advance(v, late, chain, k + 2, k + 2, true, 0, 0).0.pending;
    assert RequeuedBy(v, queue, late, k + 2, k + 2, true, 0, 0);
  }

  /** With a late result for a call that the written message does not make, the written message is captured
      as before, and that call's message is not. */
  lemma LateResults(o: Anchor, w: Captured, r: map<string, string>, x: string, output: string)
    requires Continues(o, w.source) && w.source != o && CaptureOne(w.source.message, Some(w.source), r) == Some(w)
    requires Answered(o, w.source).Keys <= r.Keys
    requires w.source.message.Said? && x !in CallIds(w.source.message.calls) && (x in r ==> r[x] != output)
    ensures var late := Link(w.source, LateResult(w, x, output));
            Continues(o, late) && late != o &&
            CaptureOne(w.source.message, Some(w.source), Answered(o, late)) == Some(w) && !Agree({x}, r, Answered(o, late))
  {
    hide Sweep;
    var m := LateResult(w, x, output);
    var late := Link(w.source, m);
    StepBeyond(o, w.source, m);
    var before := Answered(o, w.source);
    var results := Answered(o, late);
    var replies := Replies(w.tools);
    assert m.answers[..|m.answers| - 1] == replies;
    assert results == AddAnswers(before, replies)[x := output];
    var ids := CallIds(w.source.message.calls);
    CapturedEligible(w, r);
    forall y | y in ids ensures (y in r <==> y in results) && (y in r ==> r[y] == results[y]) {
      RepliesGive(before, w.source.message.calls, r, y);
    }
    ToolsTell(w.source.message.calls, r, results);
    assert x in {x} && x in results && results[x] == output;
  }

  /** Then the merge, which finds the written message, drops something else than the written segment. */
  lemma LateResultBreaks(v: Capture, ms: seq<Message>, k: nat, turn: seq<Captured>, r: map<string, string>, x: string)
    returns (queue: seq<Turn>)
    requires Sound(v) && Confirmed(v.pending) == [] && turn != [] && k < |ms|
    requires var a, w := From(v), Last(turn);
             && Tip(Seed, ms[..k + 1]) == w.source && Continues(a, w.source) && w.source != a
             && CaptureOne(w.source.message, Some(w.source), r) == Some(w)
             && Answered(Opening(a, w.source), w.source).Keys <= r.Keys
             && turn == Swept(a, Opening(a, w.source)) + Sweep(Opening(a, w.source), w.source, r)
             && Calls(Opening(a, w.source), w.source.prev, x)
             && w.source.message.Said? && x !in CallIds(w.source.message.calls)
    ensures Requeues(v, queue) && !DropsOnly(queue, turn)
  {
    hide CaptureOne, Continues, Sweep, Swept, Answered, Walk, Tip, CallIds, Agree, LateResult, Flatten, Remaining, Requeues;
    var a, w := From(v), Last(turn);
    var o := Opening(a, w.source);
    var output := if x in r then r[x] + "!" else "";
    var late := Link(w.source, LateResult(w, x, output));
    queue := LateRequeues(v, ms, k, w, x, output);
    LateResults(o, w, r, x, output);
    LateOpening(a, w, x, output);
    var q := Answered(o, late);
    LateSweep(a, w, x, output);
    SweepEndsWith(o, w, q);
    SweepEndsWith(o, w, r);
    var head := Swept(a, o);
    var f := Flatten(queue);
    assert f == head + (Sweep(o, w.source.prev, q) + [w]) && turn == head + (Sweep(o, w.source.prev, r) + [w]);
    RequeuedWalks(v, queue);
    DropsPrefix(a, queue, turn);
    if DropsOnly(queue, turn) {
      SamePrefix(a, f, f, turn);
      assert Sweep(o, w.source.prev, q) == f[|head|..|f| - 1] == turn[|head|..|turn| - 1] == Sweep(o, w.source.prev, r);
      SweepsTell(o, w.source.prev, r, q, x);
    }
  }

  lemma LateOpening(a: Anchor, w: Captured, x: string, output: string)
    requires Continues(a, w.source) && w.source != a
    ensures var late := Link(w.source, LateResult(w, x, output));
            Continues(a, late) && late != a && Opening(a, late) == Opening(a, w.source)
  {
    StepBeyond(a, w.source, LateResult(w, x, output));
  }

  lemma LateSweep(a: Anchor, w: Captured, x: string, output: string)
    requires Continues(a, w.source) && w.source != a
    ensures var late := Link(w.source, LateResult(w, x, output)); var o := Opening(a, w.source);
            Continues(a, late) && Continues(o, late) &&
            Swept(a, late) == Swept(a, o) + Sweep(o, w.source, Answered(o, late))
  {
    hide Answered;
    LateOpening(a, w, x, output);
    StepBeyond(Opening(a, w.source), w.source, LateResult(w, x, output));
  }

  // ---------------------------------------------------------------- exactly when nothing unwritten is dropped

  /** The first, unconfirmed segment of a queue, in terms of its last message. */
  lemma FirstTurn(base: Capture, v: Capture, ms: seq<Message>, user: nat, stop: nat, confirmed: bool, ready: int, uuid: nat)
    returns (r: map<string, string>, k: nat)
    requires Sound(base) && user < |ms| && IsUser(ms[user]) && stop <= |ms| && CaptureTurns.Aligned(ms, Chain(Seed, ms))
    requires v == Advance(base, ms, Chain(Seed, ms), user, stop, confirmed, ready, uuid).0
    requires v.pending != [] && !v.pending[0].confirmed
    ensures Sound(v) && v.pending[0].messages != [] && Confirmed(v.pending) == []
    ensures var a, turn := From(v), v.pending[0].messages; var w := Last(turn);
            && k < |ms| && Tip(Seed, ms[..k + 1]) == w.source && Continues(a, w.source) && w.source != a
            && CaptureOne(w.source.message, Some(w.source), r) == Some(w)
            && Answered(Opening(a, w.source), w.source).Keys <= r.Keys
            && turn == Swept(a, Opening(a, w.source)) + Sweep(Opening(a, w.source), w.source, r)
  {
    hide Chain, Tip, Walk, CaptureOne, Opening, Sweep, Swept, Answered, Continues, CaptureTurns.Aligned, IsUser, Turns, Restarts;
    var chain := Chain(Seed, ms);
    AdvanceWalks(base, ms, chain, user, stop, confirmed, ready, uuid);
    var w := FirstIsAll(base, v, ms, user, stop, confirmed, ready, uuid);
    var a, tip := From(v), Tip(Seed, ms[..stop]);
    r := SweptAt(a, tip, w);
    var o := Opening(a, w.source);
    SweepEndsWith(o, w, r);
    var turn, prefix := v.pending[0].messages, Swept(a, o) + Sweep(o, w.source, r);
    assert turn <= Flatten(v.pending) && Last(turn) == w;
    SamePrefix(a, Flatten(v.pending), turn, prefix);
    k := TipIndex(ms, stop, w.source);
  }

  lemma UnconfirmedFirst(held: seq<Turn>, added: seq<Turn>, all: seq<Turn>)
    requires all == held + added && all != [] && !all[0].confirmed && forall t :: t in held ==> t.confirmed
    ensures held == []
  {
    assert all[0] in held || held == [];
  }

  lemma FirstIsAll(base: Capture, v: Capture, ms: seq<Message>, user: nat, stop: nat, confirmed: bool, ready: int, uuid: nat)
    returns (w: Captured)
    requires Sound(base) && user < |ms| && IsUser(ms[user]) && stop <= |ms| && CaptureTurns.Aligned(ms, Chain(Seed, ms))
    requires v == Advance(base, ms, Chain(Seed, ms), user, stop, confirmed, ready, uuid).0
    requires Sound(v) && v.pending != [] && !v.pending[0].confirmed
    ensures Confirmed(v.pending) == [] && v.pending[0].messages != [] && w == Last(v.pending[0].messages)
    ensures Continues(From(v), Tip(Seed, ms[..stop])) && w in Flatten(v.pending)
    ensures Flatten(v.pending) == Swept(From(v), Tip(Seed, ms[..stop]))
  {
    hide Chain, Tip, Walk, Swept, Continues, CaptureTurns.Aligned, IsUser, Turns, Restarts;
    var chain := Chain(Seed, ms);
    var kept := Base(base, chain, user, uuid);
    BaseStays(base, chain, user, uuid);
    NewIsSound(uuid, base);
    ConfirmedPrefix(v.pending);
    ConfirmedPrefix(kept.pending);
    UnconfirmedFirst(Confirmed(kept.pending), v.pending[|Confirmed(kept.pending)|..], v.pending);
    QueueIsSwept(kept, ms, chain, user, stop, confirmed, ready, uuid);
    assert v.pending[0] in v.pending && TurnOk(v.pending[0]);
    w := Last(v.pending[0].messages);
    assert v.pending[0].messages <= Flatten(v.pending);
  }

  /** A worker writes the first segment of a document that a request stored; another request stores a new
      queue meanwhile. The merge drops exactly what was written, whatever that request is, if and only if
      the segment is confirmed, or no message from its opening up to before the written one makes a call
      that the written message does not make too. */
  lemma MergeDropsOnlyWritten(base: Capture, v: Capture, ms: seq<Message>, user: nat, stop: nat, confirmed: bool,
                              ready: int, uuid: nat)
    requires Sound(base) && user < |ms| && IsUser(ms[user]) && stop <= |ms| && CaptureTurns.Aligned(ms, Chain(Seed, ms))
    requires v == Advance(base, ms, Chain(Seed, ms), user, stop, confirmed, ready, uuid).0 && v.pending != []
    ensures v.pending[0].messages != []
    ensures (forall queue :: Requeues(v, queue) ==> DropsOnly(queue, v.pending[0].messages))
       <==> v.pending[0].confirmed || CallsShared(From(v), Last(v.pending[0].messages))
  {
    hide Chain, Walk, Advance, Requeues, DropsOnly, CallsShared, Flatten, CaptureTurns.Aligned, IsUser;
    AdvanceWalks(base, ms, Chain(Seed, ms), user, stop, confirmed, ready, uuid);
    assert v.pending[0] in v.pending && TurnOk(v.pending[0]);
    if v.pending[0].confirmed {
      forall queue | Requeues(v, queue) ensures DropsOnly(queue, v.pending[0].messages) {
        ConfirmedDrops(v, queue);
      }
    } else if CallsShared(From(v), Last(v.pending[0].messages)) {
      forall queue | Requeues(v, queue) ensures DropsOnly(queue, v.pending[0].messages) {
        SharedDrops(base, v, ms, user, stop, confirmed, ready, uuid, queue);
      }
    } else {
      var queue := UnsharedBreaks(base, v, ms, user, stop, confirmed, ready, uuid);
      assert Requeues(v, queue) && !DropsOnly(queue, v.pending[0].messages);
    }
  }

  lemma ConfirmedDrops(v: Capture, queue: seq<Turn>)
    requires Sound(v) && Requeues(v, queue) && v.pending != [] && v.pending[0].confirmed && v.pending[0].messages != []
    ensures DropsOnly(queue, v.pending[0].messages)
  {
    hide Walk, Requeues, DropsOnly, Flatten;
    RequeuedWalks(v, queue);
    ConfirmedStays(v, queue);
    DropsPrefix(From(v), queue, v.pending[0].messages);
  }

  lemma SharedDrops(base: Capture, v: Capture, ms: seq<Message>, user: nat, stop: nat, confirmed: bool, ready: int, uuid: nat,
                    queue: seq<Turn>)
    requires Sound(base) && user < |ms| && IsUser(ms[user]) && stop <= |ms| && CaptureTurns.Aligned(ms, Chain(Seed, ms))
    requires v == Advance(base, ms, Chain(Seed, ms), user, stop, confirmed, ready, uuid).0
    requires Sound(v) && v.pending != [] && !v.pending[0].confirmed && v.pending[0].messages != []
    requires CallsShared(From(v), Last(v.pending[0].messages)) && Requeues(v, queue)
    ensures DropsOnly(queue, v.pending[0].messages)
  {
    hide Chain, Walk, Advance, DropsOnly, CallsShared, Flatten, Swept, Continues, Tip, Restarts, CaptureTurns.Aligned, IsUser, Start;
    var turn := v.pending[0].messages;
    var w := FirstIsAll(base, v, ms, user, stop, confirmed, ready, uuid);
    RequeuedWalks(v, queue);
    DropsPrefix(From(v), queue, turn);
    var ms', user': nat, stop': nat, confirmed', ready', uuid': nat :|
      RequeuedBy(v, queue, ms', user', stop', confirmed', ready', uuid');
    QueueIsSwept(v, ms', Chain(Seed, ms'), user', stop', confirmed', ready', uuid');
    if w in Flatten(queue) {
      var prefix := SharedPrefix(From(v), Tip(Seed, ms[..stop]), Tip(Seed, ms'[..stop']), w);
      TurnLeads(v);
      SamePrefix(From(v), Flatten(v.pending), turn, prefix);
    }
  }

  lemma TurnLeads(v: Capture)
    requires v.pending != []
    ensures v.pending[0].messages <= Flatten(v.pending)
  {
  }

  lemma UnsharedBreaks(base: Capture, v: Capture, ms: seq<Message>, user: nat, stop: nat, confirmed: bool, ready: int, uuid: nat)
    returns (queue: seq<Turn>)
    requires Sound(base) && user < |ms| && IsUser(ms[user]) && stop <= |ms| && CaptureTurns.Aligned(ms, Chain(Seed, ms))
    requires v == Advance(base, ms, Chain(Seed, ms), user, stop, confirmed, ready, uuid).0
    requires Sound(v) && v.pending != [] && !v.pending[0].confirmed && v.pending[0].messages != []
    requires !CallsShared(From(v), Last(v.pending[0].messages))
    ensures Requeues(v, queue) && !DropsOnly(queue, v.pending[0].messages)
  {
    hide Chain, Walk, Advance, DropsOnly, Requeues, Flatten, Swept, Sweep, Answered, Continues, Tip, CaptureOne, Calls, CallIds, CaptureTurns.Aligned, IsUser;
    var turn := v.pending[0].messages;
    var w := Last(turn);
    var r, k := FirstTurn(base, v, ms, user, stop, confirmed, ready, uuid);
    CapturedEligible(w, r);
    var x :| Calls(Opening(From(v), w.source), w.source.prev, x) && x !in CallIds(w.source.message.calls);
    queue := LateResultBreaks(v, ms, k, turn, r, x);
  }
}
