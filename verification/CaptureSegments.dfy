/**
 Segments of a history, read off anchors alone: what a segment captures depends on its messages and on
 the tool results in it, so an anchor and the one a document has delivered determine it (`turns`,
 `advance` and `capture_messages` in capture.py).
 */
module CaptureSegments {
  import opened Basics
  import opened Anchors
  import opened CaptureTurns
  import opened CaptureOrder

  // ---------------------------------------------------------------- a history read off its last anchor

  /** `tip` continues `a`. */
  predicate Continues(a: Anchor, tip: Anchor)
    decreases tip
  {
    tip == a || (tip.Link? && Continues(a, tip.prev))
  }

  /** Everything after `a` up to `tip`, captured with the results at hand. */
  function Sweep(a: Anchor, tip: Anchor, results: map<string, string>): seq<Captured>
    requires Continues(a, tip)
    decreases tip
  {
    if tip == a then []
    else
      var before := Sweep(a, tip.prev, results);
      match CaptureOne(tip.message, Some(tip), results)
      case None => before
      case Some(c) => before + [c]
  }

  /** The tool results after `a` up to `tip`. */
  function Answered(a: Anchor, tip: Anchor): map<string, string>
    requires Continues(a, tip)
    decreases tip
  {
    if tip == a then map[] else AddAnswers(Answered(a, tip.prev), AnswersIn(tip.message))
  }

  /** The anchor before the segment of message `c`, when segments are counted from `a` on: a segment
      begins with a user's message, or right after `a`. */
  function Opening(a: Anchor, c: Anchor): (o: Anchor)
    requires Continues(a, c) && c != a
    ensures Continues(a, o) && Continues(o, c) && o != c && Depth(o) < Depth(c)
    decreases c
  {
    ContinuesDeepens(a, c);
    if IsUser(c.message) || c.prev == a then
      ContinuesTrans(a, c.prev, c);
      c.prev
    else
      var o := Opening(a, c.prev);
      ContinuesTrans(o, c.prev, c);
      ContinuesDeepens(o, c.prev);
      o
  }

  lemma {:induction false} ContinuesDeepens(a: Anchor, tip: Anchor)
    requires Continues(a, tip)
    ensures Depth(a) <= Depth(tip) && (a != tip ==> Depth(a) < Depth(tip))
    decreases tip
  {
    if tip != a {
      ContinuesDeepens(a, tip.prev);
    }
  }

  lemma {:induction false} ContinuesTrans(a: Anchor, b: Anchor, tip: Anchor)
    requires Continues(a, b) && Continues(b, tip)
    ensures Continues(a, tip)
    decreases tip
  {
    if tip != b {
      ContinuesTrans(a, b, tip.prev);
    }
  }

  /** What the segments after `a` up to `tip` capture, each with its own results. */
  function Swept(a: Anchor, tip: Anchor): seq<Captured>
    requires Continues(a, tip)
    decreases Depth(tip)
  {
    if tip == a then []
    else
      var o := Opening(a, tip);
      Swept(a, o) + Sweep(o, tip, Answered(o, tip))
  }

  // ---------------------------------------------------------------- the same as over messages

  lemma TipContinues(ms: seq<Message>, i: nat, j: nat)
    requires i <= j <= |ms|
    ensures Continues(Tip(Seed, ms[..i]), Tip(Seed, ms[..j]))
    decreases j
  {
    if i < j {
      TipContinues(ms, i, j - 1);
      assert ms[..j][..j - 1] == ms[..j - 1];
      TipDropLast(Seed, ms[..j]);
    }
  }

  lemma {:induction false} ResultsAreAnswered(ms: seq<Message>, i: nat, j: nat)
    requires i <= j <= |ms|
    ensures Continues(Tip(Seed, ms[..i]), Tip(Seed, ms[..j]))
    ensures Results(ms, i, j) == Answered(Tip(Seed, ms[..i]), Tip(Seed, ms[..j]))
    decreases j
  {
    hide Tip, Continues, AddAnswers, Spoken;
    TipContinues(ms, i, j);
    if i < j {
      ResultsAreAnswered(ms, i, j - 1);
      assert ms[..j][..j - 1] == ms[..j - 1];
      TipDropLast(Seed, ms[..j]);
      StepBeyond(Tip(Seed, ms[..i]), Tip(Seed, ms[..j - 1]), ms[j - 1]);
      NothingAnswered(Results(ms, i, j - 1));
    }
  }

  lemma NothingAnswered(results: map<string, string>)
    ensures AddAnswers(results, []) == results
  {
  }

  /** One more message is one more link, never back at the start. */
  lemma StepBeyond(a: Anchor, tip: Anchor, m: Message)
    requires Continues(a, tip)
    ensures Continues(a, Link(tip, m)) && Link(tip, m) != a
  {
    ContinuesDeepens(a, tip);
  }

  lemma {:induction false} RangeIsSweep(ms: seq<Message>, chain: seq<Option<Anchor>>, i: nat, j: nat, results: map<string, string>)
    requires chain == Chain(Seed, ms) && CaptureTurns.Aligned(ms, chain) && i <= j <= |ms|
    ensures Continues(Tip(Seed, ms[..i]), Tip(Seed, ms[..j]))
    ensures CaptureRange(ms, chain, i, j, results) == Sweep(Tip(Seed, ms[..i]), Tip(Seed, ms[..j]), results)
    decreases j
  {
    hide Tip, Continues, Chain, ToolsOf, Spoken;
    TipContinues(ms, i, j);
    if i < j {
      RangeIsSweep(ms, chain, i, j - 1, results);
      assert ms[..j][..j - 1] == ms[..j - 1];
      TipDropLast(Seed, ms[..j]);
      ChainAt(Seed, ms, j - 1);
      StepBeyond(Tip(Seed, ms[..i]), Tip(Seed, ms[..j - 1]), ms[j - 1]);
    }
  }

  lemma SegmentIsSweep(ms: seq<Message>, chain: seq<Option<Anchor>>, i: nat, j: nat)
    requires chain == Chain(Seed, ms) && CaptureTurns.Aligned(ms, chain) && i <= j <= |ms|
    ensures var a, tip := Tip(Seed, ms[..i]), Tip(Seed, ms[..j]);
            Continues(a, tip) && Segment(ms, chain, i, j) == Sweep(a, tip, Answered(a, tip))
  {
    hide Tip, Continues, Chain;
    RangeIsSweep(ms, chain, i, j, Results(ms, i, j));
    ResultsAreAnswered(ms, i, j);
  }

  /** Between two user messages there is one segment. */
  lemma {:induction false} OneSegment(ms: seq<Message>, i: nat, j: nat)
    requires i < j <= |ms| && forall k :: i < k < j ==> !IsUser(ms[k])
    ensures var a, tip := Tip(Seed, ms[..i]), Tip(Seed, ms[..j]);
            Continues(a, tip) && (tip != a ==> Opening(a, tip) == a)
    decreases j
  {
    hide Tip, Continues, IsUser;
    TipContinues(ms, i, j);
    assert ms[..j][..j - 1] == ms[..j - 1];
    TipDropLast(Seed, ms[..j]);
    var a, tip := Tip(Seed, ms[..i]), Tip(Seed, ms[..j]);
    if i < j - 1 {
      OneSegment(ms, i, j - 1);
      if Anchored(ms[j - 1]) {
        StepBeyond(a, Tip(Seed, ms[..j - 1]), ms[j - 1]);
      }
    }
  }

  /** A user's message opens its own segment, wherever the segments are counted from. */
  lemma {:induction false} OpeningPast(a: Anchor, u: Anchor, c: Anchor)
    requires u.Link? && IsUser(u.message) && Continues(a, u.prev) && Continues(u, c)
    ensures Continues(a, c) && c != a && Continues(u.prev, c) && c != u.prev
    ensures Opening(a, c) == Opening(u.prev, c) && Continues(u.prev, Opening(a, c))
    decreases c
  {
    hide IsUser;
    ContinuesTrans(u.prev, u, c);
    ContinuesTrans(a, u.prev, c);
    ContinuesDeepens(u, c);
    ContinuesDeepens(a, u.prev);
    if c != u {
      OpeningPast(a, u, c.prev);
    }
  }

  /** The segments up to a user's message, then those from it on. */
  lemma {:induction false} SweptSplits(a: Anchor, u: Anchor, tip: Anchor)
    requires u.Link? && IsUser(u.message) && Continues(a, u.prev) && Continues(u, tip)
    ensures Continues(a, tip) && Continues(u.prev, tip)
    ensures Swept(a, tip) == Swept(a, u.prev) + Swept(u.prev, tip)
    decreases Depth(tip)
  {
    hide IsUser, Continues, Opening, Sweep, Answered;
    OpeningPast(a, u, tip);
    var o := Opening(a, tip);
    if o == u.prev {
      SweptNothing(o);
    } else {
      OpeningReaches(u, tip);
      SweptSplits(a, u, o);
    }
  }

  lemma SweptNothing(a: Anchor)
    ensures Continues(a, a) && Swept(a, a) == []
  {
  }

  /** The opening of a later segment is at or after the user's message. */
  lemma {:induction false} OpeningReaches(u: Anchor, c: Anchor)
    requires u.Link? && IsUser(u.message) && Continues(u, c)
    requires Continues(u.prev, c) && c != u.prev && Opening(u.prev, c) != u.prev
    ensures Continues(u, Opening(u.prev, c))
    decreases c
  {
    hide IsUser;
    if c != u && !IsUser(c.message) {
      OpeningPast(u.prev, u, c.prev);
      OpeningReaches(u, c.prev);
    }
  }

  /** The segments of a range of messages, by their anchors. */
  lemma {:induction false} TurnsAreSwept(ms: seq<Message>, chain: seq<Option<Anchor>>, start: nat, stop: nat,
                                         confirmed: bool, ready: int)
    requires chain == Chain(Seed, ms) && CaptureTurns.Aligned(ms, chain) && start <= stop <= |ms|
    ensures Continues(Tip(Seed, ms[..start]), Tip(Seed, ms[..stop]))
    ensures Flatten(Turns(ms, chain, start, stop, confirmed, ready)) == Swept(Tip(Seed, ms[..start]), Tip(Seed, ms[..stop]))
    decreases stop - start
  {
    hide Tip, Chain, Segment, Continues, Opening, Sweep, Answered, IsUser, CaptureTurns.Aligned;
    var a, tip := Tip(Seed, ms[..start]), Tip(Seed, ms[..stop]);
    TipContinues(ms, start, stop);
    if start < stop {
      var next := NextUser(ms, start + 1, stop);
      var rest := Turns(ms, chain, next, stop, confirmed, ready);
      var captured := Segment(ms, chain, start, next);
      TurnsAreSwept(ms, chain, next, stop, confirmed, ready);
      FirstSegment(ms, chain, start, next);
      assert captured != [] ==> Turns(ms, chain, start, stop, confirmed, ready)[1..] == rest;
      assert Flatten(Turns(ms, chain, start, stop, confirmed, ready)) == captured + Flatten(rest);
      if next < stop {
        UserOpens(ms, next, stop);
        SweptSplits(a, Tip(Seed, ms[..next + 1]), tip);
      } else {
        SweptNothing(tip);
      }
    } else {
      SweptNothing(a);
    }
  }

  lemma FirstSegment(ms: seq<Message>, chain: seq<Option<Anchor>>, start: nat, next: nat)
    requires chain == Chain(Seed, ms) && CaptureTurns.Aligned(ms, chain) && start < next <= |ms|
    requires forall k :: start < k < next ==> !IsUser(ms[k])
    ensures var a, tip := Tip(Seed, ms[..start]), Tip(Seed, ms[..next]);
            Continues(a, tip) && Segment(ms, chain, start, next) == Swept(a, tip)
  {
    hide Tip, Chain, Continues, Opening, Segment;
    var a, tip := Tip(Seed, ms[..start]), Tip(Seed, ms[..next]);
    SegmentIsSweep(ms, chain, start, next);
    OneSegment(ms, start, next);
    if tip == a {
      assert Sweep(a, tip, Answered(a, tip)) == [];
    } else {
      SweptNothing(a);
    }
  }

  lemma UserOpens(ms: seq<Message>, next: nat, stop: nat)
    requires next < stop <= |ms| && IsUser(ms[next])
    ensures var u := Tip(Seed, ms[..next + 1]);
            u == Link(Tip(Seed, ms[..next]), ms[next]) && Continues(u, Tip(Seed, ms[..stop]))
  {
    assert ms[..next + 1][..next] == ms[..next];
    TipDropLast(Seed, ms[..next + 1]);
    TipContinues(ms, next + 1, stop);
  }

  // ---------------------------------------------------------------- where a captured message stands

  lemma {:induction false} AnsweredGrows(o: Anchor, c: Anchor, tip: Anchor)
    requires Continues(o, c) && Continues(c, tip)
    ensures Continues(o, tip) && Answered(o, c).Keys <= Answered(o, tip).Keys
    decreases tip
  {
    ContinuesTrans(o, c, tip);
    if tip != c {
      ContinuesDeepens(o, c);
      ContinuesDeepens(c, tip);
      AnsweredGrows(o, c, tip.prev);
      AnswersKeys(Answered(o, tip.prev), AnswersIn(tip.message));
    }
  }

  /** A captured message of a stretch: what the stretch up to it captures ends with it. */
  lemma {:induction false} SweepAt(o: Anchor, tip: Anchor, results: map<string, string>, c: Captured)
    requires Continues(o, tip) && c in Sweep(o, tip, results)
    ensures Continues(o, c.source) && c.source != o && Continues(c.source, tip)
    ensures Sweep(o, c.source, results) <= Sweep(o, tip, results)
    ensures CaptureOne(c.source.message, Some(c.source), results) == Some(c)
    decreases tip
  {
    hide CaptureOne;
    var last := CaptureOne(tip.message, Some(tip), results);
    if last == Some(c) {
      CapturedSource(tip.message, tip, results);
    } else {
      SweepAt(o, tip.prev, results, c);
    }
  }

  lemma CapturedSource(m: Message, a: Anchor, results: map<string, string>)
    ensures CaptureOne(m, Some(a), results).Some? ==> CaptureOne(m, Some(a), results).value.source == a
  {
  }

  lemma SweepEndsWith(o: Anchor, c: Captured, results: map<string, string>)
    requires Continues(o, c.source) && c.source != o && CaptureOne(c.source.message, Some(c.source), results) == Some(c)
    ensures Continues(o, c.source.prev) && Sweep(o, c.source, results) == Sweep(o, c.source.prev, results) + [c]
  {
  }

  /** Messages of one segment have one opening. */
  lemma {:induction false} OpeningInside(a: Anchor, c: Anchor, tip: Anchor)
    requires Continues(a, tip) && tip != a
    requires Continues(Opening(a, tip), c) && c != Opening(a, tip) && Continues(c, tip)
    ensures Continues(a, c) && c != a && Opening(a, c) == Opening(a, tip)
    decreases tip
  {
    hide IsUser;
    var o := Opening(a, tip);
    ContinuesTrans(a, o, c);
    ContinuesDeepens(a, o);
    ContinuesDeepens(o, c);
    if tip != c {
      ContinuesDeepens(c, tip.prev);
      OpeningInside(a, c, tip.prev);
    }
  }

  /** A message captured after `a`: the queue up to it is what came before its segment, then the segment
      up to it, captured with results that include those before it. */
  lemma {:induction false} SweptAt(a: Anchor, tip: Anchor, w: Captured) returns (results: map<string, string>)
    requires Continues(a, tip) && w in Swept(a, tip)
    ensures Continues(a, w.source) && w.source != a && Continues(w.source, tip)
    ensures var o := Opening(a, w.source);
            && Answered(o, w.source).Keys <= results.Keys
            && CaptureOne(w.source.message, Some(w.source), results) == Some(w)
            && Swept(a, o) + Sweep(o, w.source, results) <= Swept(a, tip)
    decreases Depth(tip)
  {
    hide CaptureOne, Continues, Opening, Sweep, Answered;
    var o := Opening(a, tip);
    if w in Sweep(o, tip, Answered(o, tip)) {
      results := Answered(o, tip);
      SweepAt(o, tip, results, w);
      OpeningInside(a, w.source, tip);
      AnsweredGrows(o, w.source, tip);
    } else {
      results := SweptAt(a, o, w);
      ContinuesTrans(w.source, o, tip);
    }
  }

  // ---------------------------------------------------------------- what results decide

  function CallIds(calls: seq<Call>): set<string> {
    set c | c in calls :: c.id
  }

  predicate Agree(ids: set<string>, r: map<string, string>, q: map<string, string>) {
    forall x :: x in ids ==> (x in r <==> x in q) && (x in r ==> r[x] == q[x])
  }

  lemma CallIdsLast(calls: seq<Call>)
    requires calls != []
    ensures CallIds(calls) == CallIds(calls[..|calls| - 1]) + {Last(calls).id}
  {
    assert calls == calls[..|calls| - 1] + [Last(calls)];
  }

  /** Equal tools are equal but for the last call, and have the same result for it. */
  lemma ToolsTellLast(calls: seq<Call>, r: map<string, string>, q: map<string, string>)
    requires calls != [] && ToolsOf(calls, r) == ToolsOf(calls, q)
    ensures ToolsOf(calls[..|calls| - 1], r) == ToolsOf(calls[..|calls| - 1], q)
    ensures var x := Last(calls).id; (x in r <==> x in q) && (x in r ==> r[x] == q[x])
  {
    var init, c := calls[..|calls| - 1], Last(calls);
    assert c.id in CallIds(calls);
    ToolsHave(calls, r, c.id);
    ToolsHave(calls, q, c.id);
    if c.id in r {
      assert ToolsOf(calls, r)[..|ToolsOf(calls, r)| - 1] == ToolsOf(init, r);
      assert ToolsOf(calls, q)[..|ToolsOf(calls, q)| - 1] == ToolsOf(init, q);
      assert Last(ToolsOf(calls, r)).output == r[c.id] && Last(ToolsOf(calls, q)).output == q[c.id];
    } else {
      assert ToolsOf(init, r) + [] == ToolsOf(init, r) && ToolsOf(init, q) + [] == ToolsOf(init, q);
    }
  }

  /** A message's tools tell which of its calls have results, and which. */
  lemma {:induction false} ToolsTell(calls: seq<Call>, r: map<string, string>, q: map<string, string>)
    ensures ToolsOf(calls, r) == ToolsOf(calls, q) <==> Agree(CallIds(calls), r, q)
    decreases |calls|
  {
    if calls != [] {
      var init, c := calls[..|calls| - 1], Last(calls);
      CallIdsLast(calls);
      hide CallIds;
      ToolsTell(init, r, q);
      if ToolsOf(calls, r) == ToolsOf(calls, q) {
        ToolsTellLast(calls, r, q);
      }
      if Agree(CallIds(calls), r, q) {
        assert c.id in CallIds(calls) && Agree(CallIds(init), r, q);
      }
    }
  }

  /** A call has a part among the tools exactly when its result is at hand. */
  lemma {:induction false} ToolsHave(calls: seq<Call>, r: map<string, string>, x: string)
    ensures (exists t :: t in ToolsOf(calls, r) && t.id == x) <==> x in CallIds(calls) && x in r
    decreases |calls|
  {
    if calls != [] {
      var c := Last(calls);
      CallIdsLast(calls);
      ToolsHave(calls[..|calls| - 1], r, x);
      if c.id in r {
        assert ToolPart(c.id, c.name, c.input, r[c.id]) in ToolsOf(calls, r);
      }
      assert forall t :: t in ToolsOf(calls[..|calls| - 1], r) ==> t in ToolsOf(calls, r);
    }
  }

  /** Some message after `o` up to `tip` that capture looks at makes this call. */
  predicate Calls(o: Anchor, tip: Anchor, x: string)
    decreases tip
  {
    tip != o && tip.Link? && ((Eligible(tip.message) && x in CallIds(tip.message.calls)) || Calls(o, tip.prev, x))
  }

  /** Only these calls are made after `o` up to `tip`. */
  ghost predicate CallsOnly(o: Anchor, tip: Anchor, ids: set<string>) {
    forall x :: Calls(o, tip, x) ==> x in ids
  }

  lemma {:induction false} SweepDepth(o: Anchor, tip: Anchor, results: map<string, string>, c: Captured)
    requires Continues(o, tip) && c in Sweep(o, tip, results)
    ensures Depth(c.source) <= Depth(tip)
    decreases tip
  {
    hide CaptureOne;
    SweepAt(o, tip, results, c);
    ContinuesDeepens(c.source, tip);
  }

  /** Results that agree on the calls capture alike. */
  lemma {:induction false} SweepsAgree(o: Anchor, tip: Anchor, r: map<string, string>, q: map<string, string>)
    requires Continues(o, tip) && forall x :: Calls(o, tip, x) ==> Agree({x}, r, q)
    ensures Sweep(o, tip, r) == Sweep(o, tip, q)
    decreases tip
  {
    if tip != o {
      assert forall x :: Calls(o, tip.prev, x) ==> Calls(o, tip, x);
      SweepsAgree(o, tip.prev, r, q);
      if Eligible(tip.message) {
        assert Agree(CallIds(tip.message.calls), r, q) by {
          forall x | x in CallIds(tip.message.calls) ensures (x in r <==> x in q) && (x in r ==> r[x] == q[x]) {
            assert Calls(o, tip, x) && Agree({x}, r, q) && x in {x};
          }
        }
        ToolsTell(tip.message.calls, r, q);
      }
    }
  }

  /** Captures that are alike come from results that agree on every call. */
  lemma {:induction false} SweepsTell(o: Anchor, tip: Anchor, r: map<string, string>, q: map<string, string>, x: string)
    requires Continues(o, tip) && Sweep(o, tip, r) == Sweep(o, tip, q) && Calls(o, tip, x)
    ensures Agree({x}, r, q)
    decreases tip
  {
    hide CaptureOne;
    var cr, cq := CaptureOne(tip.message, Some(tip), r), CaptureOne(tip.message, Some(tip), q);
    var before, before' := Sweep(o, tip.prev, r), Sweep(o, tip.prev, q);
    SameLast(o, tip, r, q);
    if Eligible(tip.message) && x in CallIds(tip.message.calls) {
      CaptureTells(tip, r, q);
    } else {
      SweepsTell(o, tip.prev, r, q, x);
    }
  }

  /** Captures of a stretch that are alike are alike in the last message and before it. */
  lemma SameLast(o: Anchor, tip: Anchor, r: map<string, string>, q: map<string, string>)
    requires Continues(o, tip) && tip != o && Sweep(o, tip, r) == Sweep(o, tip, q)
    ensures CaptureOne(tip.message, Some(tip), r) == CaptureOne(tip.message, Some(tip), q)
    ensures Sweep(o, tip.prev, r) == Sweep(o, tip.prev, q)
  {
    hide CaptureOne;
    var cr, cq := CaptureOne(tip.message, Some(tip), r), CaptureOne(tip.message, Some(tip), q);
    var s, t := Sweep(o, tip.prev, r), Sweep(o, tip.prev, q);
    CapturedSource(tip.message, tip, r);
    CapturedSource(tip.message, tip, q);
    if cr.Some? && cq.None? {
      assert cr.value in t;
      SweepDepth(o, tip.prev, q, cr.value);
    } else if cr.None? && cq.Some? {
      assert cq.value in s;
      SweepDepth(o, tip.prev, r, cq.value);
    } else if cr.Some? {
      assert (s + [cr.value])[..|s|] == s && (t + [cq.value])[..|t|] == t;
    }
  }

  lemma CaptureTells(tip: Anchor, r: map<string, string>, q: map<string, string>)
    requires tip.Link? && Eligible(tip.message)
    requires CaptureOne(tip.message, Some(tip), r) == CaptureOne(tip.message, Some(tip), q)
    ensures Agree(CallIds(tip.message.calls), r, q)
  {
    ToolsTell(tip.message.calls, r, q);
  }
}
