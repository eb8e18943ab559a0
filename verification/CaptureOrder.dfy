/**
 The order a capture document keeps: delivered messages, then the queue, as one walk through one
 history. Also `remaining` and the merge loop of `CaptureWorker.save` in capture.py.
 */
module CaptureOrder {
  import opened Basics
  import opened Anchors
  import opened CaptureTurns

  // ---------------------------------------------------------------- walks through a history

  /** A message with text is captured whatever its tool results are; the others may be left out. */
  predicate Textual(m: Message) {
    Eligible(m) && m.text != ""
  }

  /** `tip` is `a`, or continues it with messages that have no text to capture. */
  predicate Drifts(a: Anchor, tip: Anchor)
    decreases tip
  {
    tip == a || (tip.Link? && !Textual(tip.message) && Drifts(a, tip.prev))
  }

  /** `c` is what capture makes of the message its source anchor names, for some tool results. */
  ghost predicate Genuine(c: Captured) {
    && c.source.Link? && Eligible(c.source.message)
    && c.text == c.source.message.text
    && c.role == (if c.source.message.role == NoRole then Assistant else c.source.message.role)
    && (c.text != "" || c.tools != [])
    && exists results :: c.tools == ToolsOf(c.source.message.calls, results)
  }

  /** Starting right after `a`, `s` meets the messages of one history in order: none twice, and
      none with text left out. */
  ghost predicate Walk(a: Anchor, s: seq<Captured>)
    decreases |s|
  {
    s == [] || (Genuine(s[0]) && Drifts(a, s[0].source.prev) && Walk(s[0].source, s[1..]))
  }

  /** Where a walk ends. */
  function End(a: Anchor, s: seq<Captured>): Anchor {
    if s == [] then a else Last(s).source
  }

  lemma {:induction false} WalkConcat(a: Anchor, s: seq<Captured>, t: seq<Captured>)
    ensures Walk(a, s + t) <==> Walk(a, s) && Walk(End(a, s), t)
    ensures End(a, s + t) == End(End(a, s), t)
    decreases |s|
  {
    if s == [] {
      assert s + t == t;
    } else {
      assert (s + t)[1..] == s[1..] + t;
      WalkConcat(s[0].source, s[1..], t);
    }
  }

  /** Every source is strictly deeper than the one before it. */
  lemma {:induction false} WalkDeepens(a: Anchor, s: seq<Captured>, i: nat)
    requires Walk(a, s) && i < |s|
    ensures Depth(a) < Depth(s[i].source) <= Depth(End(a, s))
    decreases |s|
  {
    DriftDepth(a, s[0].source.prev);
    if i > 0 {
      WalkDeepens(s[0].source, s[1..], i - 1);
    } else if |s| > 1 {
      WalkDeepens(s[0].source, s[1..], |s| - 2);
    }
  }

  lemma {:induction false} DriftDepth(a: Anchor, tip: Anchor)
    requires Drifts(a, tip)
    ensures Depth(a) <= Depth(tip)
    decreases tip
  {
    if tip != a {
      DriftDepth(a, tip.prev);
    }
  }

  /** The anchors in `a` whose messages have text to capture, oldest first. */
  function TextAnchors(a: Anchor): seq<Anchor> {
    match a
    case Seed => []
    case Link(prev, m) => TextAnchors(prev) + (if Textual(m) then [a] else [])
  }

  function TextSources(s: seq<Captured>): seq<Anchor> {
    if s == [] then []
    else TextSources(s[..|s| - 1]) + (if Last(s).text != "" then [Last(s).source] else [])
  }

  /** What a walk adds to the messages behind it: every message with text, once, in order. */
  lemma {:induction false} WalkCovers(a: Anchor, s: seq<Captured>)
    requires Walk(a, s)
    ensures TextAnchors(End(a, s)) == TextAnchors(a) + TextSources(s)
    decreases |s|
  {
    hide Drifts;
    if s != [] {
      var init, c := s[..|s| - 1], Last(s);
      assert s == init + [c];
      WalkConcat(a, init, [c]);
      DriftAddsNoText(End(a, init), c.source.prev);
      WalkCovers(a, init);
    }
  }

  lemma {:induction false} DriftAddsNoText(a: Anchor, tip: Anchor)
    requires Drifts(a, tip)
    ensures TextAnchors(tip) == TextAnchors(a)
    decreases tip
  {
    if tip != a {
      DriftAddsNoText(a, tip.prev);
    }
  }

  /** No message behind `a` calls tools, so capturing is message by message. */
  predicate ToolFree(a: Anchor) {
    a.Link? ==> (a.message.Said? ==> a.message.calls == []) && ToolFree(a.prev)
  }

  /** The captured messages of the history behind `a`. */
  function Record(a: Anchor): seq<Captured> {
    match a
    case Seed => []
    case Link(prev, m) =>
      Record(prev) + (if Textual(m) then [Captured(if m.role == NoRole then Assistant else m.role, m.text, [], a)]
                      else [])
  }

  /** Without tool calls a walk from the start IS the captured history up to where it ends. */
  lemma {:induction false} WalkIsRecord(a: Anchor, s: seq<Captured>)
    requires Walk(a, s) && ToolFree(End(a, s))
    ensures ToolFree(a) && Record(End(a, s)) == Record(a) + s
    decreases |s|
  {
    if s != [] {
      var init, c := s[..|s| - 1], Last(s);
      assert s == init + [c];
      WalkConcat(a, init, [c]);
      DriftToolFree(End(a, init), c.source.prev);
      WalkIsRecord(a, init);
      var results :| c.tools == ToolsOf(c.source.message.calls, results);
    }
  }

  lemma {:induction false} DriftToolFree(a: Anchor, tip: Anchor)
    requires Drifts(a, tip) && ToolFree(tip)
    ensures ToolFree(a) && Record(tip) == Record(a)
    decreases tip
  {
    if tip != a {
      DriftToolFree(a, tip.prev);
    }
  }

  // ---------------------------------------------------------------- what the queue may hold

  function Flatten(turns: seq<Turn>): seq<Captured> {
    if turns == [] then [] else turns[0].messages + Flatten(turns[1..])
  }

  predicate FromUser(c: Captured) {
    c.source.Link? && IsUser(c.source.message)
  }

  /** A segment: not empty, named by its last message, and only its first may open a user's turn. */
  predicate TurnOk(t: Turn) {
    && t.messages != [] && t.anchor == Last(t.messages).source
    && t.continued == !FromUser(t.messages[0])
    && (forall i :: 1 <= i < |t.messages| ==> !FromUser(t.messages[i]))
    && (t.confirmed ==> t.ready == 0)
  }

  /** Well-formed segments, confirmed ones first. */
  predicate QueueOk(turns: seq<Turn>) {
    && (forall t :: t in turns ==> TurnOk(t))
    && (forall i, j :: 0 <= i < j < |turns| && turns[j].confirmed ==> turns[i].confirmed)
  }

  lemma {:induction false} FlattenConcat(a: seq<Turn>, b: seq<Turn>)
    ensures Flatten(a + b) == Flatten(a) + Flatten(b)
  {
    if a == [] {
      assert a + b == b;
    } else {
      assert (a + b)[1..] == a[1..] + b;
      FlattenConcat(a[1..], b);
    }
  }

  /** Confirmed segments come first, so keeping them keeps a prefix of the queue. */
  lemma {:induction false} ConfirmedPrefix(turns: seq<Turn>)
    requires QueueOk(turns)
    ensures QueueOk(Confirmed(turns))
    ensures Confirmed(turns) == turns[..|Confirmed(turns)|]
    ensures forall t :: t in Confirmed(turns) ==> t.confirmed
  {
    if turns != [] {
      ConfirmedPrefix(turns[1..]);
      if !turns[0].confirmed {
        ConfirmedSame(turns, false);
      }
    }
  }

  // ---------------------------------------------------------------- capturing a range is a walk

  lemma CaptureGenuine(ms: seq<Message>, chain: seq<Option<Anchor>>, k: nat, results: map<string, string>)
    requires chain == Chain(Seed, ms) && Aligned(ms, chain) && k < |ms|
    ensures match CaptureOne(ms[k], chain[k], results)
            case None => !Textual(ms[k])
            case Some(c) => && Genuine(c) && c.source == Link(Tip(Seed, ms[..k]), ms[k])
                            && Tip(Seed, ms[..k + 1]) == c.source
    ensures Tip(Seed, ms[..k + 1]) == if Anchored(ms[k]) then Link(Tip(Seed, ms[..k]), ms[k])
                                      else Tip(Seed, ms[..k])
  {
    hide Tip, Chain, ToolsOf;
    assert ms[..k + 1][..k] == ms[..k];
    TipDropLast(Seed, ms[..k + 1]);
    ChainAt(Seed, ms, k);
    if CaptureOne(ms[k], chain[k], results).Some? {
      assert CaptureOne(ms[k], chain[k], results).value.tools == ToolsOf(ms[k].calls, results);
    }
  }

  lemma {:induction false} CaptureWalks(a: Anchor, ms: seq<Message>, chain: seq<Option<Anchor>>,
                                        i: nat, j: nat, results: map<string, string>)
    requires chain == Chain(Seed, ms) && Aligned(ms, chain) && i <= j <= |ms|
    requires Drifts(a, Tip(Seed, ms[..i]))
    ensures var s := CaptureRange(ms, chain, i, j, results);
            Walk(a, s) && Drifts(End(a, s), Tip(Seed, ms[..j]))
    decreases j
  {
    hide Tip, Chain, CaptureOne, Genuine;
    if i < j {
      CaptureWalks(a, ms, chain, i, j - 1, results);
      CaptureGenuine(ms, chain, j - 1, results);
      var before := CaptureRange(ms, chain, i, j - 1, results);
      match CaptureOne(ms[j - 1], chain[j - 1], results) {
        case None =>
        case Some(c) => WalkConcat(a, before, [c]);
      }
    }
  }

  /** Only the first message of a segment can be a user's. */
  lemma {:induction false} RangeUsers(ms: seq<Message>, chain: seq<Option<Anchor>>, i: nat, j: nat,
                                      results: map<string, string>)
    requires chain == Chain(Seed, ms) && Aligned(ms, chain) && i < j <= |ms|
    requires forall k :: i < k < j ==> !IsUser(ms[k])
    ensures var s := CaptureRange(ms, chain, i, j, results);
            && (IsUser(ms[i]) ==> s != [])
            && (s != [] ==> FromUser(s[0]) == IsUser(ms[i]))
            && (forall x :: 1 <= x < |s| ==> !FromUser(s[x]))
    decreases j
  {
    hide Tip, Chain, Genuine, ToolsOf;
    CaptureGenuine(ms, chain, j - 1, results);
    if i < j - 1 {
      RangeUsers(ms, chain, i, j - 1, results);
    } else {
      assert CaptureRange(ms, chain, i, i, results) == [];
    }
  }

  lemma {:induction false} TurnsWalk(a: Anchor, ms: seq<Message>, chain: seq<Option<Anchor>>,
                                     start: nat, stop: nat, confirmed: bool, ready: int)
    requires chain == Chain(Seed, ms) && Aligned(ms, chain) && start <= stop <= |ms|
    requires Drifts(a, Tip(Seed, ms[..start]))
    ensures var turns := Turns(ms, chain, start, stop, confirmed, ready);
            && Walk(a, Flatten(turns)) && Drifts(End(a, Flatten(turns)), Tip(Seed, ms[..stop]))
            && forall t :: t in turns ==> TurnOk(t) && t.confirmed == confirmed
    decreases stop - start
  {
    hide Tip, Chain, CaptureRange, Walk, Drifts, Aligned, IsUser, FromUser;
    if start < stop {
      var next := NextUser(ms, start + 1, stop);
      var captured := Segment(ms, chain, start, next);
      CaptureWalks(a, ms, chain, start, next, Results(ms, start, next));
      RangeUsers(ms, chain, start, next, Results(ms, start, next));
      TurnsWalk(End(a, captured), ms, chain, next, stop, confirmed, ready);
      var rest := Turns(ms, chain, next, stop, confirmed, ready);
      if captured != [] {
        var turns := Turns(ms, chain, start, stop, confirmed, ready);
        assert turns[1..] == rest && turns[0].messages == captured;
        WalkConcat(a, captured, Flatten(rest));
      }
    } else {
      EmptyWalk(a);
    }
  }

  lemma EmptyWalk(a: Anchor)
    ensures Walk(a, [])
  {
  }

  // ---------------------------------------------------------------- advance keeps the walk

  /** The anchor the queue continues: the last delivered message, or the start of the history. */
  function From(v: Capture): Anchor {
    if v.delivered.Some? then v.delivered.value else Seed
  }

  /** What a capture document promises about its queue. */
  ghost predicate Sound(v: Capture) {
    && QueueOk(v.pending)
    && Walk(From(v), Flatten(v.pending))
    && (v.delivered.Some? ==> v.delivered.value.Link?)
  }

  function PositionOf(chain: seq<Option<Anchor>>, a: Anchor): int {
    if a == Seed then -1 else Position(chain, a)
  }

  lemma DeeperIsLater(ms: seq<Message>, chain: seq<Option<Anchor>>, a: Anchor, b: Anchor)
    requires chain == Chain(Seed, ms)
    requires a == Seed || Position(chain, a) >= 0
    requires Position(chain, b) >= 0 && Depth(a) < Depth(b)
    ensures PositionOf(chain, a) < Position(chain, b)
  {
    hide Chain, Find;
    if a != Seed {
      var i, j := Position(chain, a), Position(chain, b);
      if j < i {
        ChainDeepens(Seed, ms, j, i);
      }
    }
  }

  /** The furthest of the delivered and confirmed anchors is where the walk ends. */
  lemma {:induction false} ReachIsEnd(ms: seq<Message>, chain: seq<Option<Anchor>>, a: Anchor, held: seq<Turn>)
    requires chain == Chain(Seed, ms)
    requires a == Seed || Position(chain, a) >= 0
    requires Walk(a, Flatten(held)) && Known(chain, held) && forall t :: t in held ==> TurnOk(t)
    ensures var end := End(a, Flatten(held));
            && (end == Seed || Position(chain, end) >= 0)
            && Max(PositionOf(chain, a), Reach(chain, held)) == PositionOf(chain, end)
    decreases |held|
  {
    hide Chain, Position, FromUser, Walk, Known;
    if held != [] {
      var first, rest := held[0], held[1..];
      assert held == [first] + rest && first in held && TurnOk(first);
      KnownConcat(chain, [first], rest);
      KnownHead(chain, first);
      WalkConcat(a, first.messages, Flatten(rest));
      WalkDeepens(a, first.messages, |first.messages| - 1);
      DeeperIsLater(ms, chain, a, first.anchor);
      WalkLinks(a, first.messages);
      ReachIsEnd(ms, chain, first.anchor, rest);
    }
  }

  lemma KnownHead(chain: seq<Option<Anchor>>, t: Turn)
    requires Known(chain, [t])
    ensures Position(chain, t.anchor) >= 0
  {
    assert t in [t];
  }

  lemma WalkLinks(a: Anchor, s: seq<Captured>)
    requires Walk(a, s) && s != []
    ensures End(a, s).Link?
  {
    WalkDeepens(a, s, |s| - 1);
  }

  /** A request's queue is a walk from the same delivered message, or from the start of a new session. */
  lemma AdvanceWalks(v: Capture, ms: seq<Message>, chain: seq<Option<Anchor>>, user: nat, stop: nat,
                     confirmed: bool, ready: int, uuid: nat)
    requires chain == Chain(Seed, ms) && Aligned(ms, chain) && stop <= |ms|
    requires Sound(v)
    ensures var w := Advance(v, ms, chain, user, stop, confirmed, ready, uuid).0;
            && Sound(w)
            && (Restarts(v, chain, user) ==> w == NewCapture(uuid, Some(v)).(request := v.request, pending := w.pending))
            && (!Restarts(v, chain, user) ==> w == v.(pending := w.pending))
            && (Start(Base(v, chain, user, uuid), chain) <= stop ==>
                  Drifts(End(From(w), Flatten(w.pending)), Tip(Seed, ms[..stop])))
  {
    hide Chain, Walk, Turns, Confirmed, Position, Reach, Known, Tip, QueueOk, TurnOk, Flatten;
    BaseStays(v, chain, user, uuid);
    NewIsSound(uuid, v);
    QueueWalks(Base(v, chain, user, uuid), ms, chain, user, stop, confirmed, ready);
  }

  /** `end` lies in this history, at `stop` or later, up to messages without text. */
  ghost predicate Reaches(end: Anchor, ms: seq<Message>, stop: nat) {
    exists n :: stop <= n <= |ms| && Drifts(end, Tip(Seed, ms[..n]))
  }

  /** After `advance`, what is delivered and queued goes through the request's history at least to `stop`. */
  lemma AdvanceReaches(v: Capture, ms: seq<Message>, chain: seq<Option<Anchor>>, user: nat, stop: nat,
                       confirmed: bool, ready: int, uuid: nat)
    requires chain == Chain(Seed, ms) && Aligned(ms, chain) && stop <= |ms| && Sound(v)
    ensures var w := Advance(v, ms, chain, user, stop, confirmed, ready, uuid).0;
            Reaches(End(From(w), Flatten(w.pending)), ms, stop)
  {
    hide Chain, Walk, Turns, Confirmed, Position, Reach, Known, Tip, QueueOk, TurnOk, Flatten, Drifts, Aligned;
    var base := Base(v, chain, user, uuid);
    AdvanceWalks(v, ms, chain, user, stop, confirmed, ready, uuid);
    if Start(base, chain) > stop {
      BaseStays(v, chain, user, uuid);
      NewIsSound(uuid, v);
      HeldWalks(base, ms, chain, user);
      NoTurns(ms, chain, Start(base, chain), Split(base, chain, user, stop), true, 0);
      NoTurns(ms, chain, Split(base, chain, user, stop), stop, confirmed, ready);
      assert Confirmed(base.pending) + ([] + []) == Confirmed(base.pending);
    }
  }

  lemma NewIsSound(uuid: nat, v: Capture)
    ensures Sound(NewCapture(uuid, Some(v)).(request := v.request))
  {
  }

  lemma QueueWalks(base: Capture, ms: seq<Message>, chain: seq<Option<Anchor>>, user: nat, stop: nat,
                   confirmed: bool, ready: int)
    requires chain == Chain(Seed, ms) && Aligned(ms, chain) && stop <= |ms|
    requires Sound(base) && !Restarts(base, chain, user)
    ensures var held := Confirmed(base.pending);
            var sure, tail := Sure(base, ms, chain, user, stop), Tail(base, ms, chain, user, stop, confirmed, ready);
            && QueueOk(held + (sure + tail)) && Walk(From(base), Flatten(held + (sure + tail)))
            && (Start(base, chain) <= stop ==>
                  Drifts(End(From(base), Flatten(held + (sure + tail))), Tip(Seed, ms[..stop])))
  {
    hide Chain, Walk, Turns, Confirmed, Position, Reach, Tip, TurnOk, Flatten, Aligned, Drifts;
    var held, start, split := Confirmed(base.pending), Start(base, chain), Split(base, chain, user, stop);
    var sure, tail := Sure(base, ms, chain, user, stop), Tail(base, ms, chain, user, stop, confirmed, ready);
    HeldWalks(base, ms, chain, user);
    var end := End(From(base), Flatten(held));
    FlattenConcat(sure, tail);
    FlattenConcat(held, sure + tail);
    if start <= stop {
      TurnsWalk(end, ms, chain, start, split, true, 0);
      TurnsWalk(End(end, Flatten(sure)), ms, chain, split, stop, confirmed, ready);
    } else {
      NoTurns(ms, chain, start, split, true, 0);
      NoTurns(ms, chain, split, stop, confirmed, ready);
      EmptyFlat();
      EmptyWalk(end);
      EmptyWalk(End(end, Flatten(sure)));
    }
    WalkConcat(end, Flatten(sure), Flatten(tail));
    WalkConcat(From(base), Flatten(held), Flatten(sure) + Flatten(tail));
  }

  lemma EmptyFlat()
    ensures Flatten([]) == []
  {
  }

  /** The confirmed part of the queue is a walk that ends at the position before `Start`. */
  lemma HeldWalks(base: Capture, ms: seq<Message>, chain: seq<Option<Anchor>>, user: nat)
    requires chain == Chain(Seed, ms) && Sound(base) && !Restarts(base, chain, user)
    ensures var held := Confirmed(base.pending);
            var end := End(From(base), Flatten(held));
            && QueueOk(held) && (forall t :: t in held ==> t.confirmed)
            && Walk(From(base), Flatten(held))
            && Start(base, chain) <= |ms| && Drifts(end, Tip(Seed, ms[..Start(base, chain)]))
  {
    hide Chain, Walk, Confirmed, Position, Reach, Tip, TurnOk, Flatten;
    var held := Confirmed(base.pending);
    ConfirmedPrefix(base.pending);
    var rest := base.pending[|held|..];
    assert base.pending == held + rest;
    FlattenConcat(held, rest);
    WalkConcat(From(base), Flatten(held), Flatten(rest));
    ReachIsEnd(ms, chain, From(base), held);
    var end := End(From(base), Flatten(held));
    var start := Start(base, chain);
    if end == Seed {
      NoTip(ms);
    } else {
      ChainAt(Seed, ms, start - 1);
    }
  }

  lemma NoTip(ms: seq<Message>)
    ensures Tip(Seed, ms[..0]) == Seed
  {
  }

  // ---------------------------------------------------------------- the worker's merge

  /** `s` is `before`, then the first copy of `x`, then `after`. */
  ghost predicate SplitsAt<T>(s: seq<T>, before: seq<T>, x: T, after: seq<T>) {
    s == before + [x] + after && x !in before
  }

  /** What follows the first copy of `x`. */
  function After<T(==)>(s: seq<T>, x: T): seq<T>
    requires x in s
  {
    if s[0] == x then s[1..] else After(s[1..], x)
  }

  lemma {:induction false} AfterSplits<T>(s: seq<T>, x: T) returns (before: seq<T>)
    requires x in s
    ensures SplitsAt(s, before, x, After(s, x))
  {
    if s[0] == x {
      before := [];
    } else {
      var rest := AfterSplits(s[1..], x);
      before := [s[0]] + rest;
    }
  }

  lemma SplitHead<T>(head: seq<T>, rest: seq<T>, before: seq<T>, x: T, after: seq<T>)
    requires SplitsAt(head, before, x, after)
    ensures SplitsAt(head + rest, before, x, after + rest)
  {
  }

  lemma SplitTail<T>(head: seq<T>, rest: seq<T>, before: seq<T>, x: T, after: seq<T>)
    requires SplitsAt(rest, before, x, after) && x !in head
    ensures SplitsAt(head + rest, head + before, x, after)
  {
  }

  /** The segment without what was delivered. */
  function Trimmed(t: Turn, written: Captured): seq<Turn>
    requires written in t.messages
  {
    var rest := After(t.messages, written);
    if rest == [] then [] else [t.(messages := rest, continued := true)]
  }

  /** `remaining`: the queue after a delivered message, or None when it no longer holds it. */
  function Remaining(pending: seq<Turn>, written: Captured): Option<seq<Turn>> {
    if pending == [] then None
    else if written in pending[0].messages then Some(Trimmed(pending[0], written) + pending[1..])
    else Remaining(pending[1..], written)
  }

  lemma TrimmedOk(t: Turn, written: Captured)
    requires TurnOk(t) && written in t.messages
    ensures forall u :: u in Trimmed(t, written) ==> TurnOk(u) && u.confirmed == t.confirmed && u.ready == t.ready
    ensures |Trimmed(t, written)| <= 1
  {
    hide After, FromUser;
    var before := AfterSplits(t.messages, written);
    var rest := After(t.messages, written);
    if rest != [] {
      var u := t.(messages := rest, continued := true);
      assert forall i :: 0 <= i < |rest| ==> rest[i] == t.messages[|before| + 1 + i];
      assert TurnOk(u);
    }
  }

  lemma TrimmedFlat(t: Turn, written: Captured)
    requires written in t.messages
    ensures Flatten(Trimmed(t, written)) == After(t.messages, written)
  {
    hide After;
    var trimmed := Trimmed(t, written);
    if trimmed != [] {
      assert Flatten(trimmed[1..]) == [];
    }
  }

  /** Exactly the messages up to and including the first copy of the written one go; the request's
      newer tail stays. */
  lemma {:induction false} RemainingCutsThere(pending: seq<Turn>, written: Captured)
    returns (before: seq<Captured>)
    ensures Remaining(pending, written).Some? <==> written in Flatten(pending)
    ensures Remaining(pending, written).Some? ==>
              SplitsAt(Flatten(pending), before, written, Flatten(Remaining(pending, written).value))
  {
    hide After, Trimmed, SplitsAt;
    before := [];
    if pending != [] {
      var head, rest := pending[0].messages, Flatten(pending[1..]);
      if written in head {
        before := AfterSplits(head, written);
        TrimmedFlat(pending[0], written);
        FlattenConcat(Trimmed(pending[0], written), pending[1..]);
        SplitHead(head, rest, before, written, After(head, written));
      } else {
        var deeper := RemainingCutsThere(pending[1..], written);
        before := head + deeper;
        if written in rest {
          SplitTail(head, rest, deeper, written, Flatten(Remaining(pending, written).value));
        }
      }
    }
  }

  lemma {:induction false} RemainingOk(pending: seq<Turn>, written: Captured)
    requires QueueOk(pending) && Remaining(pending, written).Some?
    ensures QueueOk(Remaining(pending, written).value)
  {
    hide After, Trimmed, TurnOk;
    if written in pending[0].messages {
      TrimmedOk(pending[0], written);
    } else {
      RemainingOk(pending[1..], written);
    }
  }
}
