/**
 The hidden loop and the next request together: `persist` stores the transcript (and the window, if the
 model started one), and the request that follows assembles exactly the history the loop ended with.
 */
module Continuity {
  import opened Basics
  import opened Cuts
  import opened Replay
  import opened Windows
  import opened ToolLoop

  // ---------------------------------------------------------------- what assembly reads

  ghost predicate SameAt(a: nat, r: Records, q: Records) {
    && (a in r.cuts <==> a in q.cuts) && (a in r.cuts ==> r.cuts[a] == q.cuts[a])
    && (a in r.hidden <==> a in q.hidden) && (a in r.hidden ==> r.hidden[a] == q.hidden[a])
    && (a in r.thoughts <==> a in q.thoughts) && (a in r.thoughts ==> r.thoughts[a] == q.thoughts[a])
    && (a in r.asText <==> a in q.asText)
  }

  /** Records are written once, so a later request finds those an earlier one found, and more. */
  ghost predicate Agree(chain: seq<Mark>, r: Records, q: Records) {
    forall i :: 0 <= i < |chain| && chain[i].Some? ==> SameAt(chain[i].value, r, q)
  }

  lemma LatestReads(chain: seq<Mark>, r: Records, q: Records)
    requires Agree(chain, r, q)
    ensures Latest(chain, r.cuts) == Latest(chain, q.cuts)
  {
    hide Latest;
    var j, k := Latest(chain, r.cuts), Latest(chain, q.cuts);
    assert j > 0 ==> CutAfter(chain, q.cuts, j);
    assert k > 0 ==> CutAfter(chain, r.cuts, k);
  }

  lemma AppliedReads(b: Body, r: Records, q: Records)
    requires Aligned(b) && Agree(b.chain, r, q)
    ensures Applied(b, r.cuts) == Applied(b, q.cuts) && Agree(Applied(b, r.cuts).chain, r, q)
  {
    hide Latest;
    LatestReads(b.chain, r, q);
    var k := Latest(b.chain, r.cuts);
    if k > 0 {
      assert SameAt(b.chain[k - 1].value, r, q);
      var c := Applied(b, r.cuts).chain;
      assert forall i :: 0 <= i < |c| - (|b.chain| - k) ==> c[i].None?;
      assert forall i :: |c| - (|b.chain| - k) <= i < |c| ==> c[i] == b.chain[i - |c| + |b.chain|];
      hide SameAt;
    }
  }

  lemma AgreeJoined(a: seq<Mark>, b: seq<Mark>, r: Records, q: Records)
    requires Agree(a, r, q) && Agree(b, r, q)
    ensures Agree(a + b, r, q)
  {
    hide SameAt;
  }

  lemma SpanReads(chain: seq<Mark>, r: Records, q: Records, j: nat)
    requires Agree(chain, r, q) && j < |chain|
    ensures Span(chain, r, j) == Span(chain, q, j) && Transcript(chain, r, j) == Transcript(chain, q, j)
  {
  }

  lemma RestoresReads(b: Body, r: Records, q: Records, i: nat)
    requires Aligned(b) && Agree(b.chain, r, q) && i < |b.items|
    ensures Restores(b, r, i) <==> Restores(b, q, i)
  {
    forall j: nat | j < |b.chain| ensures Span(b.chain, r, j) == Span(b.chain, q, j) {
      SpanReads(b.chain, r, q, j);
    }
    assert b.chain[i].Some? ==> SameAt(b.chain[i].value, r, q);
    hide Span;
  }

  lemma ItemsForReads(previous: seq<Item>, b: Body, r: Records, q: Records, i: nat)
    requires Aligned(b) && Agree(b.chain, r, q) && i < |b.items|
    ensures ItemsFor(previous, b, r, i) == ItemsFor(previous, b, q, i)
  {
    hide Refilled, Covered;
    RestoresReads(b, r, q, i);
    assert b.chain[i].Some? ==> SameAt(b.chain[i].value, r, q);
  }

  lemma {:induction false} RestoredReads(b: Body, r: Records, q: Records, n: nat)
    requires Aligned(b) && Agree(b.chain, r, q) && n <= |b.items|
    ensures Restored(b, r, n) == Restored(b, q, n) && Agree(Restored(b, r, n).chain, r, q)
    decreases n
  {
    hide ItemsFor, SameAt;
    if n > 0 {
      RestoredReads(b, r, q, n - 1);
      var p := Restored(b, r, n - 1);
      ItemsForReads(p.items, b, r, q, n - 1);
      AgreeJoined(p.chain, Gap(|ItemsFor(p.items, b, r, n - 1)| - 1) + [b.chain[n - 1]], r, q);
    }
  }

  lemma {:induction false} ScannedReads(b: Body, r: Records, q: Records, n: nat)
    requires Aligned(b) && Agree(b.chain, r, q) && n <= |b.items|
    ensures Scanned(b, r, n) == Scanned(b, q, n)
    decreases n
  {
    hide Span, Transcript, Advanced, Agree;
    if n > 0 {
      ScannedReads(b, r, q, n - 1);
      SpanReads(b.chain, r, q, n - 1);
    }
  }

  /** Assembly reads only what is recorded at the history's own anchors. */
  lemma AssembledReads(b: Body, r: Records, q: Records)
    requires Aligned(b) && Agree(b.chain, r, q)
    ensures Assembled(b, r) == Assembled(b, q)
  {
    hide Agree, Applied, Restored, Scanned;
    AppliedKeeps(b, r.cuts);
    AppliedReads(b, r, q);
    var c := Applied(b, r.cuts);
    RestoredReads(c, r, q, |c.items|);
    RestoredKeeps(c, r, |c.items|);
    var d := Restored(c, r, |c.items|);
    ScannedReads(d, r, q, |d.items|);
  }

  // ---------------------------------------------------------------- the next request

  /** The loop was set up from this history and these records. */
  ghost predicate SetUp(p: Setup, b: Body, r: Records) {
    && Aligned(b) && RecordsPlain(r) && SpansPlain(Applied(b, r.cuts), r)
    && p.start == Assembled(b, r)
    && (p.cutAt.Some? ==>
          && Latest(b.chain, r.cuts) < LastAnchored(b.chain)
          && p.cutAt.value == |p.start| - |b.chain| + LastAnchored(b.chain))
  }

  /** What a later request finds recorded: the window at the last client message if the model started
      one, else what this request found. */
  ghost predicate Recorded(b: Body, r: Records, next: Records, window: Option<string>)
    requires window.Some? ==> LastAnchored(b.chain) > 0
  {
    if window.None? then Agree(b.chain, r, next)
    else
      var a := b.chain[LastAnchored(b.chain) - 1].value;
      a in next.cuts && next.cuts[a] == window.value
  }

  /** For every run of the hidden loop that ends: the next request, whose client resends the visible reply
      `v` and adds `x`, sends upstream the last body of this run, the output that followed it, and `x`. */
  lemma NextRequestReplaysTheLoop(p: Setup, b: Body, r: Records, replies: seq<Round>, v: Body, x: Body, next: Records)
    requires SetUp(p, b, r) && Run(p, Begin(p), replies).Finish?
    requires var s := Run(p, Begin(p), replies).loop;
             && (s.window.Some? ==> LastAnchored(b.chain) > 0)
             && Recorded(b, r, next, s.window) && Reply(v, next, s.transcript)
    requires Unrecorded(x, next)
    ensures var t := Run(p, Begin(p), replies); var u := Joined(b, Joined(v, x));
            Aligned(u) && Assembled(u, next) == t.loop.body + t.last + x.items
  {
    hide Run, Begin, Assembled, Applied, RecordsPlain, SpansPlain, Latest, LastAnchored, Reply, Unrecorded, Agree, Cut;
    var t := Run(p, Begin(p), replies);
    TranscriptIsExact(p, replies);
    WindowNeedsAPlace(p, replies);
    if t.loop.window.None? {
      AssembledReads(b, r, next);
      NextRequestContinues(b, v, x, next, t.loop.transcript);
    } else {
      NextRequestContinuesWindow(b, v, x, r, t.loop.window.value, next, t.loop.transcript);
    }
  }

  lemma WindowNeedsAPlace(p: Setup, replies: seq<Round>)
    requires Ready(p) && Run(p, Begin(p), replies).Finish?
    ensures Run(p, Begin(p), replies).loop.window.Some? ==> p.cutAt.Some?
  {
    hide Run, Begin;
    BeginKept(p);
    RunKeeps(p, Begin(p), replies);
  }
}
