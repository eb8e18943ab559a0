/**
 The worker's merge after any number of conflicts (`save` in capture.py): requests may store queue after
 queue while one segment is being written.
 */
module CaptureConflicts {
  import opened Basics
  import opened Anchors
  import opened CaptureTurns
  import opened CaptureOrder
  import opened CaptureSegments
  import opened CaptureMerge

  // ---------------------------------------------------------------- any number of requests

  /** No message after `a`, up to `tip`, has tool calls that capture would look at. */
  predicate Toolless(a: Anchor, tip: Anchor)
    decreases tip
  {
    tip == a || (tip.Link? && (Eligible(tip.message) ==> tip.message.calls == []) && Toolless(a, tip.prev))
  }

  /** The anchor a captured message continues. */
  function Before(c: Captured): Anchor {
    if c.source.Link? then c.source.prev else Seed
  }

  /** A walk splits off its last message. */
  lemma WalkLast(a: Anchor, q: seq<Captured>)
    requires Walk(a, q) && q != []
    ensures Genuine(Last(q)) && Walk(a, q[..|q| - 1])
    ensures Drifts(End(a, q[..|q| - 1]), Before(Last(q)))
  {
    assert q == q[..|q| - 1] + [Last(q)];
    WalkConcat(a, q[..|q| - 1], [Last(q)]);
  }

  /** Where no tools are called, there is only one walk. */
  lemma {:induction false} ToollessWalk(a: Anchor, tip: Anchor, q: seq<Captured>, results: map<string, string>)
    requires Continues(a, tip) && Toolless(a, tip)
    requires Walk(a, q) && Drifts(End(a, q), tip)
    ensures q == Sweep(a, tip, results)
    decreases tip
  {
    hide Walk;
    if tip == a {
      if q != [] {
        DriftDepth(End(a, q), tip);
        WalkDeepens(a, q, |q| - 1);
      }
    } else if q != [] && End(a, q) == tip {
      WalkLast(a, q);
      var c := Last(q);
      var some :| c.tools == ToolsOf(c.source.message.calls, some);
      ToollessWalk(a, tip.prev, q[..|q| - 1], results);
    } else {
      assert q == [] ==> End(a, q) == a;
      ToollessWalk(a, tip.prev, q, results);
    }
  }

  lemma ToollessPrefix(a: Anchor, turn: seq<Captured>, before: seq<Captured>)
    requires Walk(a, turn) && turn != [] && Walk(a, before + [Last(turn)])
    requires Continues(a, Before(Last(turn))) && Toolless(a, Before(Last(turn)))
    ensures turn == before + [Last(turn)]
  {
    hide Walk, Toolless, Sweep, Drifts, Continues, Genuine;
    var w, q := Last(turn), before + [Last(turn)];
    WalkLast(a, q);
    WalkLast(a, turn);
    assert Last(q) == w && q[..|q| - 1] == before;
    ToollessWalk(a, Before(w), before, map[]);
    ToollessWalk(a, Before(w), turn[..|turn| - 1], map[]);
  }

  lemma {:induction false} DriftContinues(a: Anchor, b: Anchor, tip: Anchor)
    requires Continues(a, b) && Drifts(b, tip)
    ensures Continues(a, tip)
    decreases tip
  {
    if tip != b {
      DriftContinues(a, b, tip.prev);
    }
  }

  lemma {:induction false} EndContinues(a: Anchor, q: seq<Captured>)
    requires Walk(a, q)
    ensures Continues(a, End(a, q)) && (q != [] ==> Continues(a, Before(Last(q))))
    decreases |q|
  {
    hide Walk;
    if q != [] {
      WalkLast(a, q);
      EndContinues(a, q[..|q| - 1]);
      DriftContinues(a, End(a, q[..|q| - 1]), Before(Last(q)));
    }
  }

  /** Documents that requests store one after the other, in one session, starting from `v`. */
  ghost predicate Follows(v: Capture, docs: seq<Capture>)
    decreases |docs|
  {
    docs == [] || (Requeues(v, docs[0].pending) && docs[0] == v.(pending := docs[0].pending) && Follows(docs[0], docs[1..]))
  }

  lemma RequeuedSound(v: Capture, d: Capture)
    requires Sound(v) && Requeues(v, d.pending) && d == v.(pending := d.pending)
    ensures Sound(d)
  {
    hide Chain, Walk, Flatten, Advance, Restarts, QueueOk;
    var ms: seq<Message>, user: nat, stop: nat, confirmed: bool, ready: int, uuid: nat :|
      RequeuedBy(v, d.pending, ms, user, stop, confirmed, ready, uuid);
    AdvanceWalks(v, ms, Chain(Seed, ms), user, stop, confirmed, ready, uuid);
  }

  lemma {:induction false} FollowsSound(v: Capture, docs: seq<Capture>)
    requires Sound(v) && Follows(v, docs) && docs != []
    ensures Sound(Last(docs)) && From(Last(docs)) == From(v)
    decreases |docs|
  {
    hide Sound, Requeues;
    RequeuedSound(v, docs[0]);
    if |docs| > 1 {
      FollowsSound(docs[0], docs[1..]);
    }
  }

  lemma {:induction false} FollowsConfirmed(v: Capture, docs: seq<Capture>)
    requires Sound(v) && Follows(v, docs) && v.pending != [] && v.pending[0].confirmed
    ensures docs != [] ==> Last(docs).pending != [] && Last(docs).pending[0] == v.pending[0]
    decreases |docs|
  {
    hide Sound, Requeues;
    if docs != [] {
      RequeuedSound(v, docs[0]);
      ConfirmedFirst(v, docs[0].pending);
      FollowsConfirmed(docs[0], docs[1..]);
    }
  }

  lemma ConfirmedFirst(v: Capture, queue: seq<Turn>)
    requires Requeues(v, queue) && v.pending != [] && v.pending[0].confirmed
    ensures queue != [] && queue[0] == v.pending[0]
  {
    hide Chain, Turns, Restarts;
    var ms: seq<Message>, user: nat, stop: nat, confirmed: bool, ready: int, uuid: nat :|
      RequeuedBy(v, queue, ms, user, stop, confirmed, ready, uuid);
    assert Confirmed(v.pending)[0] == v.pending[0];
  }

  lemma FollowsDrops(v: Capture, docs: seq<Capture>)
    requires Sound(v) && Follows(v, docs) && docs != [] && v.pending != [] && v.pending[0].messages != []
    requires v.pending[0].confirmed || Toolless(From(v), Before(Last(v.pending[0].messages)))
    ensures DropsOnly(Last(docs).pending, v.pending[0].messages)
  {
    hide Walk, Toolless, Follows, DropsOnly, QueueOk;
    var a, turn, d := From(v), v.pending[0].messages, Last(docs);
    FollowsSound(v, docs);
    DropsPrefix(a, d.pending, turn);
    var q, w := Flatten(d.pending), Last(turn);
    if v.pending[0].confirmed {
      FollowsConfirmed(v, docs);
    } else if w in q {
      var k :| 0 <= k < |q| && q[k] == w;
      assert q == (q[..k] + [w]) + q[k + 1..];
      WalkConcat(a, q[..k] + [w], q[k + 1..]);
      assert Flatten(v.pending) == turn + Flatten(v.pending[1..]);
      WalkConcat(a, turn, Flatten(v.pending[1..]));
      EndContinues(a, turn);
      ToollessPrefix(a, turn, q[..k]);
    }
  }

  // ---------------------------------------------------------------- two requests that lose a call

  lemma {:induction false} CallFound(a: Anchor, tip: Anchor) returns (c: Anchor, x: string)
    requires Continues(a, tip) && !Toolless(a, tip)
    ensures c.Link? && Continues(a, c) && c != a && Continues(c, tip)
    ensures Eligible(c.message) && x in CallIds(c.message.calls)
    decreases tip
  {
    if Eligible(tip.message) && tip.message.calls != [] {
      c, x := tip, tip.message.calls[0].id;
      ContinuesDeepens(a, tip);
    } else {
      c, x := CallFound(a, tip.prev);
    }
  }

  lemma StartIsEnd(v: Capture, ms: seq<Message>, chain: seq<Option<Anchor>>, user: nat)
    requires chain == Chain(Seed, ms) && Sound(v) && !Restarts(v, chain, user)
    ensures Start(v, chain) <= |ms| && Tip(Seed, ms[..Start(v, chain)]) == End(From(v), Flatten(Confirmed(v.pending)))
  {
    hide Chain, Tip, Walk, Position, Known, QueueOk, TurnOk, Drifts, Flatten;
    var held := Confirmed(v.pending);
    HeldWalks(v, ms, chain, user);
    HeldTurns(held);
    ReachIsEnd(ms, chain, From(v), held);
    var end := End(From(v), Flatten(held));
    if end == Seed {
      NoMessages(ms);
    } else {
      ChainAt(Seed, ms, Position(chain, end));
    }
  }

  lemma HeldTurns(held: seq<Turn>)
    requires QueueOk(held)
    ensures forall t :: t in held ==> TurnOk(t)
  {
  }

  lemma AdvanceShape(v: Capture, ms: seq<Message>, chain: seq<Option<Anchor>>, user: nat, uuid: nat)
    requires CaptureTurns.Aligned(ms, chain) && user < |ms| && !Restarts(v, chain, user) && Start(v, chain) <= user
    ensures Advance(v, ms, chain, user, user, true, 0, uuid).0.pending == Confirmed(v.pending) + Turns(ms, chain, Start(v, chain), user, true, 0)
  {
    hide Restarts, Turns, Confirmed, CaptureTurns.Aligned, Start;
    BaseIsKept(v, chain, user, uuid);
    NoTurns(ms, chain, user, user, true, 0);
    var sure := Turns(ms, chain, Start(v, chain), user, true, 0);
    assert sure + [] == sure;
  }

  /** The queue that `advance` builds: the confirmed segments, then what follows them. */
  lemma QueueAfterHeld(v: Capture, ms: seq<Message>, chain: seq<Option<Anchor>>, user: nat, uuid: nat)
    requires chain == Chain(Seed, ms) && CaptureTurns.Aligned(ms, chain) && user < |ms| && IsUser(ms[user])
    requires Sound(v) && !Restarts(v, chain, user) && Start(v, chain) <= user
    ensures var q := Advance(v, ms, chain, user, user, true, 0, uuid).0.pending;
            var end, tip := End(From(v), Flatten(Confirmed(v.pending))), Tip(Seed, ms[..user]);
            Continues(end, tip) && Flatten(q) == Flatten(Confirmed(v.pending)) + Swept(end, tip) && Confirmed(q) == q
  {
    hide *;
    AdvanceShape(v, ms, chain, user, uuid);
    StartIsEnd(v, ms, chain, user);
    var start, held := Start(v, chain), Confirmed(v.pending);
    var sure := Turns(ms, chain, start, user, true, 0);
    FlattenConcat(held, sure);
    TurnsAreSwept(ms, chain, start, user, true, 0);
    TurnsFlag(ms, chain, start, user, true, 0);
    ConfirmedTwice(v.pending);
    ConfirmedSame(sure, true);
    ConfirmedConcat(held, sure);
  }

  lemma BaseIsKept(v: Capture, chain: seq<Option<Anchor>>, user: nat, uuid: nat)
    requires !Restarts(v, chain, user)
    ensures Base(v, chain, user, uuid) == v
  {
  }

  /** A request whose history ends in a tool result, and then a user's message: everything before that is
      confirmed. */
  lemma ResultConfirmed(v: Capture, ms: seq<Message>, k: nat, c: Anchor, m: Message) returns (d: Capture)
    requires Sound(v) && k < |ms| && Tip(Seed, ms[..k + 1]) == c && m.Said? && !IsUser(m)
    requires var end := End(From(v), Flatten(Confirmed(v.pending))); Continues(end, c)
    requires var late := ms[..k + 1] + [m, NextQuestion]; !Restarts(v, Chain(Seed, late), k + 2)
    ensures Requeues(v, d.pending) && d == v.(pending := d.pending) && Confirmed(d.pending) == d.pending
    ensures var end := End(From(v), Flatten(Confirmed(v.pending)));
            Continues(end, Link(c, m)) && Flatten(d.pending) == Flatten(Confirmed(v.pending)) + Swept(end, Link(c, m))
  {
    hide Tip, Chain, Walk, Flatten, Swept, Continues, Position, Turns, QueueOk, CaptureTurns.Aligned, IsUser, Restarts, Confirmed;
    var late := ms[..k + 1] + [m, NextQuestion];
    var chain := Chain(Seed, late);
    assert late[..k + 2][..k + 1] == ms[..k + 1];
    assert late[k + 1] == m && late[k + 2] == NextQuestion;
    TipDropLast(Seed, late[..k + 2]);
    NextIsUser();
    ChainAligned(Seed, late);
    EndBefore(v, late, k, c);
    QueueAfterHeld(v, late, chain, k + 2, 0);
    d := v.(pending := Advance(v, late, chain, k + 2, k + 2, true, 0, 0).0.pending);
    assert RequeuedBy(v, d.pending, late, k + 2, k + 2, true, 0, 0);
  }

  lemma NextIsUser()
    ensures IsUser(NextQuestion)
  {
  }

  lemma EndBefore(v: Capture, late: seq<Message>, k: nat, c: Anchor)
    requires Sound(v) && k + 2 < |late| && Tip(Seed, late[..k + 1]) == c
    requires Continues(End(From(v), Flatten(Confirmed(v.pending))), c) && !Restarts(v, Chain(Seed, late), k + 2)
    ensures Start(v, Chain(Seed, late)) <= k + 2
  {
    hide Tip, Chain, Walk, Flatten, Continues, Position, QueueOk, Restarts, TurnOk, Known, Drifts, Confirmed;
    var chain := Chain(Seed, late);
    var end := End(From(v), Flatten(Confirmed(v.pending)));
    HeldWalks(v, late, chain, k + 2);
    HeldTurns(Confirmed(v.pending));
    PlacesKnown(v, chain, k + 2);
    ReachIsEnd(late, chain, From(v), Confirmed(v.pending));
    if end != Seed {
      var i := TipIndex(late, k + 1, end);
      ChainDistinct(late);
      assert Position(chain, chain[i].value) == i;
    }
  }

  lemma PlacesKnown(v: Capture, chain: seq<Option<Anchor>>, user: nat)
    requires !Restarts(v, chain, user)
    ensures v.delivered.Some? ==> Position(chain, v.delivered.value) >= 0
    ensures Known(chain, Confirmed(v.pending))
  {
  }

  lemma StaysInSession(v: Capture, late: seq<Message>, k: nat, c: Anchor)
    requires Sound(v) && k + 2 < |late| && Tip(Seed, late[..k + 1]) == c
    requires v.delivered.Some? ==> Continues(v.delivered.value, c)
    requires forall t :: t in Confirmed(v.pending) ==> t.anchor.Link? && Continues(t.anchor, c)
    ensures !Restarts(v, Chain(Seed, late), k + 2)
  {
    hide Tip, Chain, Walk, Flatten, Continues, Position, QueueOk;
    var chain := Chain(Seed, late);
    ChainDistinct(late);
    if v.delivered.Some? {
      var i := TipIndex(late, k + 1, v.delivered.value);
      assert Position(chain, chain[i].value) == i;
    }
    forall t | t in Confirmed(v.pending) ensures Position(chain, t.anchor) >= 0 {
      var i := TipIndex(late, k + 1, t.anchor);
      assert Position(chain, chain[i].value) == i;
    }
  }

  /** A bound on the length of every tool output in a queue. */
  function LongestOutput(tools: seq<ToolPart>): nat {
    if tools == [] then 0 else Max(LongestOutput(tools[..|tools| - 1]), |Last(tools).output|)
  }

  function LongestIn(q: seq<Captured>): nat {
    if q == [] then 0 else Max(LongestIn(q[..|q| - 1]), LongestOutput(Last(q).tools))
  }

  lemma {:induction false} OutputBound(tools: seq<ToolPart>, t: ToolPart)
    requires t in tools
    ensures |t.output| <= LongestOutput(tools)
    decreases |tools|
  {
    if t != Last(tools) {
      OutputBound(tools[..|tools| - 1], t);
    }
  }

  lemma {:induction false} QueueBound(q: seq<Captured>, c: Captured, t: ToolPart)
    requires c in q && t in c.tools
    ensures |t.output| <= LongestIn(q)
    decreases |q|
  {
    if c == Last(q) {
      OutputBound(c.tools, t);
    } else {
      QueueBound(q[..|q| - 1], c, t);
    }
  }

  function ToolResult(answers: seq<Answer>): Message {
    Said(Tool, false, "", [], answers)
  }

  /** A tool result at the end is not captured itself; it adds its answers to the last segment. */
  lemma ResultEnds(a: Anchor, c: Anchor, answers: seq<Answer>)
    requires Continues(a, c) && c != a
    ensures var tip := Link(c, ToolResult(answers)); var o := Opening(a, c);
            && Continues(a, tip) && Continues(o, tip) && tip != o
            && Answered(o, tip) == AddAnswers(Answered(o, c), answers)
            && Swept(a, tip) == Swept(a, o) + Sweep(o, c, Answered(o, tip))
  {
    StepBeyond(a, c, ToolResult(answers));
    StepBeyond(Opening(a, c), c, ToolResult(answers));
    hide AddAnswers;
  }

  /** A call answered right after its message: the queue up to there ends with that call and its result. */
  lemma AnsweredCall(a: Anchor, c: Anchor, x: string, output: string) returns (e: Captured, t: ToolPart)
    requires Continues(a, c) && c != a && Eligible(c.message) && x in CallIds(c.message.calls)
    ensures var tip := Link(c, ToolResult([Answer(x, output)]));
            && Continues(a, tip) && Swept(a, tip) != [] && e == Last(Swept(a, tip)) && e.source == c
    ensures t in e.tools && t.output == output
  {
    hide Sweep, Swept, Answered, CallIds;
    var m := ToolResult([Answer(x, output)]);
    var tip := Link(c, m);
    ResultEnds(a, c, [Answer(x, output)]);
    var o := Opening(a, c);
    var r := Answered(o, tip);
    assert r == Answered(o, c)[x := output] by {
      assert [Answer(x, output)][..0] == [];
    }
    t := AnsweredPart(c.message.calls, r, x);
    e := CaptureOne(c.message, Some(c), r).value;
    SweepEndsWith(o, e, r);
  }

  lemma {:induction false} AnsweredPart(calls: seq<Call>, r: map<string, string>, x: string) returns (t: ToolPart)
    requires x in CallIds(calls) && x in r
    ensures t in ToolsOf(calls, r) && t.id == x && t.output == r[x]
    decreases |calls|
  {
    CallIdsLast(calls);
    if Last(calls).id == x {
      t := ToolPart(x, Last(calls).name, Last(calls).input, r[x]);
    } else {
      t := AnsweredPart(calls[..|calls| - 1], r, x);
    }
  }

  /** Counted from a later message, a segment opens no earlier. */
  lemma {:induction false} OpeningLater(a: Anchor, c: Anchor, t: Anchor)
    requires Continues(a, c) && c != a && Continues(c, t) && t != c
    ensures Continues(a, t) && t != a && Continues(Opening(a, t), Opening(c, t))
    decreases t
  {
    ContinuesTrans(a, c, t);
    ContinuesDeepens(a, c);
    ContinuesDeepens(c, t);
    if !IsUser(t.message) && t.prev != c {
      OpeningLater(a, c, t.prev);
    }
  }

  lemma {:induction false} AnsweredShrinks(o: Anchor, p: Anchor, t: Anchor)
    requires Continues(o, p) && Continues(p, t)
    ensures Continues(o, t) && Answered(p, t).Keys <= Answered(o, t).Keys
    decreases t
  {
    ContinuesTrans(o, p, t);
    if t != p {
      ContinuesDeepens(o, p);
      ContinuesDeepens(p, t);
      AnsweredShrinks(o, p, t.prev);
      AnswersKeys(Answered(o, t.prev), AnswersIn(t.message));
      AnswersKeys(Answered(p, t.prev), AnswersIn(t.message));
    }
  }

  /** Answered once more as its tools say, a message is captured as it was, from any later start. */
  lemma CapturedAgain(a: Anchor, c: Anchor, w: Captured, r: map<string, string>)
    requires Continues(a, c) && c != a && Continues(c, w.source) && w.source != c
    requires Continues(a, w.source) && w.source != a && CaptureOne(w.source.message, Some(w.source), r) == Some(w)
    requires Answered(Opening(a, w.source), w.source).Keys <= r.Keys
    ensures var tip := Link(w.source, ToolResult(Replies(w.tools))); Continues(c, tip) && w in Swept(c, tip)
  {
    hide Sweep, Swept, Answered, AddAnswers, CallIds;
    var o, p := Opening(a, w.source), Opening(c, w.source);
    ResultEnds(c, w.source, Replies(w.tools));
    var q := Answered(p, Link(w.source, ToolResult(Replies(w.tools))));
    OpeningLater(a, c, w.source);
    AnsweredShrinks(o, p, w.source);
    CapturedEligible(w, r);
    forall y | y in CallIds(w.source.message.calls) ensures (y in r <==> y in q) && (y in r ==> r[y] == q[y]) {
      RepliesGive(Answered(p, w.source), w.source.message.calls, r, y);
    }
    ToolsTell(w.source.message.calls, r, q);
    SweepEndsWith(p, w, q);
  }

  /** What is captured after `a` up to a tool result comes from before that result. */
  lemma SourcesBefore(a: Anchor, c: Anchor, answers: seq<Answer>, e: Captured)
    requires Continues(a, Link(c, ToolResult(answers))) && e in Swept(a, Link(c, ToolResult(answers)))
    ensures e.source.Link? && Continues(e.source, c)
  {
    hide Swept, Opening, Answered, Sweep;
    var r := SweptAt(a, Link(c, ToolResult(answers)), e);
    CapturedEligible(e, r);
  }

  lemma {:induction false} AnchorsCaptured(turns: seq<Turn>, t: Turn)
    requires t in turns && t.messages != []
    ensures Last(t.messages) in Flatten(turns)
    decreases |turns|
  {
    if t != turns[0] {
      AnchorsCaptured(turns[1..], t);
    }
  }

  /** Two requests in a row: the first confirms an earlier call with one result, the second goes back to the
      written history. The merge then finds the written message after a call that was never written. */
  lemma TwoRequests(v: Capture, ms: seq<Message>, k: nat, turn: seq<Captured>, r: map<string, string>, c: Anchor, x: string)
    returns (docs: seq<Capture>)
    requires Sound(v) && Confirmed(v.pending) == [] && turn != [] && k < |ms| && turn <= Flatten(v.pending)
    requires var a, w := From(v), Last(turn);
             && Tip(Seed, ms[..k + 1]) == w.source && Continues(a, w.source) && w.source != a
             && CaptureOne(w.source.message, Some(w.source), r) == Some(w)
             && Answered(Opening(a, w.source), w.source).Keys <= r.Keys
             && c.Link? && Continues(a, c) && c != a && Continues(c, w.source.prev)
             && Eligible(c.message) && x in CallIds(c.message.calls)
    ensures docs != [] && Follows(v, docs) && !DropsOnly(Last(docs).pending, turn)
  {
    hide Tip, Chain, Walk, Flatten, Swept, Continues, Opening, Answered, CaptureOne, CallIds, Remaining, Requeues, Restarts, DropsOnly;
    hide QueueOk, Confirmed, ToolResult, Replies;
    var a, w := From(v), Last(turn);
    var output := seq(LongestIn(Flatten(v.pending)) + 1, _ => '!');
    var first, e, t := FirstRequest(v, ms, k, w, c, x, output);
    RequeuedSound(v, first);
    var second := SecondRequest(v, first, ms, k, w, r, c, x, output, e);
    docs := [first, second];
    assert docs[1..] == [second] && [second][1..] == [];
    assert Follows(second, []) && Follows(first, [second]) && Follows(v, docs);
    RequeuedSound(first, second);
    var f := Flatten(second.pending);
    DropsPrefix(a, second.pending, turn);
    if DropsOnly(second.pending, turn) {
      var i :| 0 <= i < |f| && f[i] == e;
      assert f[|turn| - 1] == w;
      CallEarlier(a, f, i, |turn| - 1, c);
      assert e == turn[i] && e in Flatten(v.pending);
      QueueBound(Flatten(v.pending), e, t);
    }
  }

  lemma CallEarlier(a: Anchor, f: seq<Captured>, i: nat, j: nat, c: Anchor)
    requires Walk(a, f) && i < |f| && j < |f| && f[i].source == c && f[j].source.Link? && Continues(c, f[j].source.prev)
    ensures i < j
  {
    hide Walk;
    ContinuesDeepens(c, f[j].source.prev);
    if j < i {
      WalkApart(a, f, j, i);
    }
  }

  lemma FirstRequest(v: Capture, ms: seq<Message>, k: nat, w: Captured, c: Anchor, x: string, output: string)
    returns (d: Capture, e: Captured, t: ToolPart)
    requires Sound(v) && Confirmed(v.pending) == [] && k < |ms| && Tip(Seed, ms[..k + 1]) == w.source && w.source.Link?
    requires Continues(From(v), c) && c != From(v) && c.Link? && Continues(c, w.source.prev)
    requires Eligible(c.message) && x in CallIds(c.message.calls)
    ensures Requeues(v, d.pending) && d == v.(pending := d.pending) && Confirmed(d.pending) == d.pending
    ensures var tip := Link(c, ToolResult([Answer(x, output)]));
            Continues(From(v), tip) && Flatten(d.pending) == Swept(From(v), tip)
    ensures Flatten(d.pending) != [] && Last(Flatten(d.pending)) == e && e.source == c && t in e.tools && t.output == output
  {
    hide Tip, Chain, Walk, Swept, CaptureOne, CallIds, Requeues, Restarts, QueueOk, Turns;
    var m := ToolResult([Answer(x, output)]);
    assert Continues(c, w.source);
    var i := TipIndex(ms, k + 1, c);
    var late := ms[..i + 1] + [m, NextQuestion];
    assert late[..i + 1] == ms[..i + 1];
    EmptyFlat();
    StaysInSession(v, late, i, c);
    d := ResultConfirmed(v, ms, i, c, m);
    e, t := AnsweredCall(From(v), c, x, output);
    assert [] + Swept(From(v), Link(c, m)) == Swept(From(v), Link(c, m));
  }

  lemma SecondRequest(v: Capture, d: Capture, ms: seq<Message>, k: nat, w: Captured, r: map<string, string>, c: Anchor, x: string,
                      output: string, e: Captured)
    returns (f: Capture)
    requires Sound(d) && From(d) == From(v) && Confirmed(d.pending) == d.pending && k < |ms| && Tip(Seed, ms[..k + 1]) == w.source
    requires var a, tip := From(v), Link(c, ToolResult([Answer(x, output)]));
             && Continues(a, tip) && Flatten(d.pending) == Swept(a, tip) && Flatten(d.pending) != []
             && Last(Flatten(d.pending)) == e && e.source == c
             && Continues(a, w.source) && w.source != a && CaptureOne(w.source.message, Some(w.source), r) == Some(w)
             && Answered(Opening(a, w.source), w.source).Keys <= r.Keys
             && c.Link? && Continues(a, c) && c != a && Continues(c, w.source.prev)
    ensures Requeues(d, f.pending) && f == d.(pending := f.pending)
    ensures e in Flatten(f.pending) && w in Flatten(f.pending)
  {
    hide Tip, Chain, Walk, Swept, CaptureOne, CallIds, Requeues, Restarts, Flatten, Turns, Opening, Answered, Replies, FromUser;
    var a := From(v);
    var m := ToolResult(Replies(w.tools));
    var late := ms[..k + 1] + [m, NextQuestion];
    assert late[..k + 1] == ms[..k + 1];
    assert Continues(c, w.source);
    forall t | t in Confirmed(d.pending) ensures t.anchor.Link? && Continues(t.anchor, w.source) {
      assert TurnOk(t);
      AnchorsCaptured(d.pending, t);
      SourcesBefore(a, c, [Answer(x, output)], Last(t.messages));
      ContinuesTrans(t.anchor, c, w.source);
    }
    StaysInSession(d, late, k, w.source);
    f := ResultConfirmed(d, ms, k, w.source, m);
    ContinuesDeepens(c, w.source.prev);
    CapturedAgain(a, c, w, r);
    assert e in Flatten(d.pending);
  }

  /** The merge drops exactly what was written, however many requests store a queue meanwhile, if and only if
      the segment is confirmed, or no message between the last delivered one and the written one makes a
      call. */
  lemma MergesDropOnlyWritten(base: Capture, v: Capture, ms: seq<Message>, user: nat, stop: nat, confirmed: bool,
                              ready: int, uuid: nat)
    requires Sound(base) && user < |ms| && IsUser(ms[user]) && stop <= |ms| && CaptureTurns.Aligned(ms, Chain(Seed, ms))
    requires v == Advance(base, ms, Chain(Seed, ms), user, stop, confirmed, ready, uuid).0 && v.pending != []
    ensures v.pending[0].messages != []
    ensures (forall docs :: docs != [] && Follows(v, docs) ==> DropsOnly(Last(docs).pending, v.pending[0].messages))
       <==> v.pending[0].confirmed || Toolless(From(v), Before(Last(v.pending[0].messages)))
  {
    hide Chain, Walk, Advance, Follows, DropsOnly, Toolless, CaptureTurns.Aligned, IsUser, Sweep, Swept, Answered, Continues, Tip, CaptureOne, CallIds;
    AdvanceWalks(base, ms, Chain(Seed, ms), user, stop, confirmed, ready, uuid);
    assert v.pending[0] in v.pending && TurnOk(v.pending[0]);
    var turn := v.pending[0].messages;
    if v.pending[0].confirmed || Toolless(From(v), Before(Last(turn))) {
      forall docs | docs != [] && Follows(v, docs) ensures DropsOnly(Last(docs).pending, turn) {
        FollowsDrops(v, docs);
      }
    } else {
      var r, k := FirstTurn(base, v, ms, user, stop, confirmed, ready, uuid);
      var w := Last(turn);
      assert Continues(From(v), w.source.prev) by { SweepEndsWith(From(v), w, r); }
      var c, x := CallFound(From(v), w.source.prev);
      TurnLeads(v);
      var docs := TwoRequests(v, ms, k, turn, r, c, x);
      assert docs != [] && Follows(v, docs) && !DropsOnly(Last(docs).pending, turn);
    }
  }
}
