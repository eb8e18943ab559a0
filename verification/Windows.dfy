/**
 Starting a new context window in the middle of a request (`HiddenToolLoop.reset` in tool_loop.py and
 `new_context` in windows.py): the window the model continues in is the one every later request replays.
 */
module Windows {
  import opened Basics
  import opened Cuts
  import opened Replay

  /** How many messages precede the end of the last anchored one, 0 without one (windows.py:184). */
  function LastAnchored(chain: seq<Mark>): (k: nat)
    ensures k <= |chain| && (k > 0 ==> chain[k - 1].Some?)
    ensures forall j :: k <= j < |chain| ==> chain[j].None?
  {
    var n := |chain|;
    if n == 0 || chain[n - 1].Some? then n else LastAnchored(chain[..n - 1])
  }

  /** Recorded transcripts and reasoning hold no system or developer messages. */
  ghost predicate RecordsPlain(r: Records) {
    && (forall a :: a in r.hidden ==> Plain(r.hidden[a].messages))
    && (forall a :: a in r.thoughts && r.thoughts[a].Separate? ==> Plain(r.thoughts[a].items))
  }

  predicate PlainFrom(s: seq<Item>, lo: nat, hi: nat) {
    forall i :: lo <= i < hi && i < |s| ==> s[i].role != Leading
  }

  /** Every recorded transcript stands for items of this body, none of them a system message. */
  ghost predicate SpansPlain(b: Body, r: Records) {
    forall j :: 0 <= j < |b.chain| && b.chain[j].Some? && b.chain[j].value in r.hidden ==> SpanPlain(b, r, j)
  }

  ghost predicate SpanPlain(b: Body, r: Records, j: nat)
    requires j < |b.chain| && b.chain[j].Some? && b.chain[j].value in r.hidden
  {
    var count := r.hidden[b.chain[j].value].visible;
    count > 0 ==> count <= j + 1 && PlainFrom(b.items, j + 1 - count, j + 1)
  }

  // ---------------------------------------------------------------- system messages through assembly

  lemma RefilledLeads(previous: seq<Item>, message: Item, value: Thought)
    requires value.Separate? ==> Plain(value.items)
    ensures Leads(Refilled(previous, message, value)) == Leads([message])
    ensures message.role != Leading ==> Plain(Refilled(previous, message, value))
  {
    var items := Refilled(previous, message, value);
    if value.Separate? && items != [message] {
      LeadsConcat(value.items, [message]);
      LeadsOfPlain(value.items);
    } else if items != [message] {
      LeadsOfPlain(items);
      LeadsOfPlain([message]);
    }
  }

  lemma ItemsForLeads(previous: seq<Item>, b: Body, r: Records, i: nat)
    requires Aligned(b) && i < |b.items| && RecordsPlain(r)
    ensures Leads(ItemsFor(previous, b, r, i)) == Leads([b.items[i]])
    ensures b.items[i].role != Leading ==> Plain(ItemsFor(previous, b, r, i))
  {
    hide Leads, Refilled;
    if Restores(b, r, i) {
      RefilledLeads(previous, b.items[i], r.thoughts[b.chain[i].value]);
    }
  }

  lemma {:induction false} RestoredLeads(b: Body, r: Records, n: nat)
    requires Aligned(b) && n <= |b.items| && RecordsPlain(r)
    ensures Leads(Restored(b, r, n).items) == Leads(b.items[..n])
    decreases n
  {
    hide ItemsFor, RecordsPlain, Leads;
    if n > 0 {
      RestoredLeads(b, r, n - 1);
      var p := Restored(b, r, n - 1).items;
      var items := ItemsFor(p, b, r, n - 1);
      ItemsForLeads(p, b, r, n - 1);
      LeadsConcat(p, items);
      LeadsConcat(b.items[..n - 1], [b.items[n - 1]]);
      assert b.items[..n] == b.items[..n - 1] + [b.items[n - 1]];
    } else {
      assert b.items[..n] == Restored(b, r, n).items;
    }
  }

  /** Restoring only adds items: as many of the last ones as the body had are still no system messages. */
  lemma {:induction false} RestoredTailPlain(b: Body, r: Records, a: nat, n: nat)
    requires Aligned(b) && a <= n <= |b.items| && RecordsPlain(r) && PlainFrom(b.items, a, n)
    ensures var t := Restored(b, r, n).items; n - a <= |t| && PlainFrom(t, |t| - (n - a), |t|)
    decreases n
  {
    hide ItemsFor, RecordsPlain;
    if n > a {
      RestoredTailPlain(b, r, a, n - 1);
      var p := Restored(b, r, n - 1).items;
      ItemsForLeads(p, b, r, n - 1);
      hide Leads;
      var items := ItemsFor(p, b, r, n - 1);
      assert Restored(b, r, n).items == p + items;
    }
  }

  lemma RestoredLastSpan(b: Body, r: Records, n: nat)
    requires Aligned(b) && 0 < n <= |b.items| && RecordsPlain(r) && SpansPlain(b, r)
    ensures var t := Restored(b, r, n); |t.chain| == |t.items| > 0 && Last(t.chain) == b.chain[n - 1]
    ensures var t := Restored(b, r, n);
            Last(t.chain).Some? && Last(t.chain).value in r.hidden ==> SpanPlain(t, r, |t.chain| - 1)
  {
    hide ItemsFor, RecordsPlain, Anchors;
    RestoredKeeps(b, r, n);
    if b.chain[n - 1].Some? && b.chain[n - 1].value in r.hidden {
      assert SpanPlain(b, r, n - 1);
      var count := r.hidden[b.chain[n - 1].value].visible;
      if count > 0 { RestoredTailPlain(b, r, n - count, n); }
    }
  }

  lemma {:induction false} RestoredSpans(b: Body, r: Records, n: nat)
    requires Aligned(b) && n <= |b.items| && RecordsPlain(r) && SpansPlain(b, r)
    ensures SpansPlain(Restored(b, r, n), r)
    decreases n
  {
    hide ItemsFor, RecordsPlain, Anchors;
    if n > 0 {
      RestoredSpans(b, r, n - 1);
      RestoredKeeps(b, r, n - 1);
      RestoredLastSpan(b, r, n);
      var p, t := Restored(b, r, n - 1), Restored(b, r, n);
      assert p.items <= t.items && p.chain <= t.chain;
      assert forall j :: |p.chain| <= j < |t.chain| - 1 ==> t.chain[j].None?;
      hide Restored;
      forall j | 0 <= j < |t.chain| && t.chain[j].Some? && t.chain[j].value in r.hidden ensures SpanPlain(t, r, j) {
        if j < |p.chain| {
          assert SpanPlain(p, r, j);
        }
      }
    }
  }

  /** The scan's system messages are the body's, and what stands for plain messages is plain. */
  ghost predicate ScanPlain(items: seq<Item>, s: Scan, n: nat)
    requires n <= |items|
  {
    && |s.offsets| == n
    && Leads(s.result) == Leads(items[..n])
    && forall k :: 0 <= k < n && PlainFrom(items, k, n) ==> PlainFrom(s.result, s.offsets[k], |s.result|)
  }

  lemma ScanAdds(items: seq<Item>, s: Scan, n: nat)
    requires n < |items| && ScanPlain(items, s, n)
    ensures ScanPlain(items, Advanced(s, items[n], 0, []), n + 1)
  {
    var t := Advanced(s, items[n], 0, []);
    assert items[..n + 1] == items[..n] + [items[n]];
    LeadsConcat(items[..n], [items[n]]);
    LeadsConcat(s.result, [items[n]]);
    hide Leads;
    forall k | 0 <= k < n + 1 && PlainFrom(items, k, n + 1) ensures PlainFrom(t.result, t.offsets[k], |t.result|) {
      if k < n { assert PlainFrom(items, k, n); }
    }
  }

  /** Replacing plain items by plain items changes no system message. */
  lemma LeadsReplaced(items: seq<Item>, e: nat, transcript: seq<Item>)
    requires e <= |items| && PlainFrom(items, e, |items|) && Plain(transcript)
    ensures Leads(items[..e] + transcript) == Leads(items)
  {
    hide Leads;
    LeadsConcat(items[..e], transcript);
    LeadsOfPlain(transcript);
    LeadsConcat(items[..e], items[e..]);
    LeadsOfPlain(items[e..]);
    assert items == items[..e] + items[e..];
  }

  lemma PlainReplaced(items: seq<Item>, lo: nat, e: nat, transcript: seq<Item>)
    requires e <= |items| && PlainFrom(items, lo, |items|) && Plain(transcript)
    ensures PlainFrom(items[..e] + transcript, lo, |items[..e] + transcript|)
  {
  }

  lemma ScanReplaces(items: seq<Item>, s: Scan, n: nat, count: nat, transcript: seq<Item>)
    requires n < |items| && ScanPlain(items, s, n) && 0 < count <= n + 1
    requires PlainFrom(items, n + 1 - count, n + 1) && Plain(transcript)
    ensures ScanPlain(items, Advanced(s, items[n], count, transcript), n + 1)
  {
    hide Leads, Advanced, Plain, PlainFrom;
    var added := Advanced(s, items[n], 0, []);
    ScanAdds(items, s, n);
    AdvancedReplaces(s, items[n], count, transcript);
    ReplacesPlain(items, added, n + 1, n + 1 - count, Min(added.offsets[n + 1 - count], |added.result|), transcript);
  }

  lemma AdvancedReplaces(s: Scan, item: Item, count: nat, transcript: seq<Item>)
    requires 0 < count <= |s.offsets| + 1
    ensures var added := Advanced(s, item, 0, []);
            && |added.offsets| == |s.offsets| + 1
            && var e := Min(added.offsets[|added.offsets| - count], |added.result|);
               Advanced(s, item, count, transcript) == Scan(added.result[..e] + transcript, added.offsets)
  {
  }

  lemma ReplacesPlain(items: seq<Item>, s: Scan, n: nat, k: nat, e: nat, transcript: seq<Item>)
    requires k < n <= |items| && ScanPlain(items, s, n) && PlainFrom(items, k, n) && Plain(transcript)
    requires e == Min(s.offsets[k], |s.result|)
    ensures ScanPlain(items, Scan(s.result[..e] + transcript, s.offsets), n)
  {
    hide Leads, PlainFrom, Plain;
    assert PlainFrom(s.result, e, |s.result|) by { PlainFromClamped(s.result, s.offsets[k], e); }
    LeadsReplaced(s.result, e, transcript);
    forall i | 0 <= i < n && PlainFrom(items, i, n)
      ensures PlainFrom(s.result[..e] + transcript, s.offsets[i], |s.result[..e] + transcript|)
    {
      PlainReplaced(s.result, s.offsets[i], e, transcript);
    }
  }

  lemma PlainFromClamped(items: seq<Item>, lo: nat, e: nat)
    requires PlainFrom(items, lo, |items|) && e == Min(lo, |items|)
    ensures PlainFrom(items, e, |items|)
  {
  }

  lemma {:induction false} ScannedLeads(b: Body, r: Records, n: nat)
    requires Aligned(b) && n <= |b.items| && RecordsPlain(r) && SpansPlain(b, r)
    ensures ScanPlain(b.items, Scanned(b, r, n), n)
    decreases n
  {
    hide ScanPlain, Advanced;
    if n > 0 {
      ScannedLeads(b, r, n - 1);
      if Span(b.chain, r, n - 1) == 0 {
        ScanAdds(b.items, Scanned(b, r, n - 1), n - 1);
      } else {
        assert SpanPlain(b, r, n - 1);
        ScanReplaces(b.items, Scanned(b, r, n - 1), n - 1, Span(b.chain, r, n - 1), Transcript(b.chain, r, n - 1));
      }
    } else {
      ScanStarts(b.items);
    }
  }

  lemma ScanStarts(items: seq<Item>)
    ensures ScanPlain(items, Scan([], []), 0)
  {
  }

  // ---------------------------------------------------------------- the new window

  /** The last `q` items go through assembly unchanged, after the same system messages. */
  ghost predicate SameEnd(a: seq<Item>, b: seq<Item>, q: nat) {
    q <= |a| && q <= |b| && a[|a| - q..] == b[|b| - q..] && Leads(a[..|a| - q]) == Leads(b[..|b| - q])
  }

  lemma AppliedEnd(b: Body, cuts: map<nat, string>, q: nat)
    requires Aligned(b) && q <= |b.items| - Latest(b.chain, cuts)
    ensures SameEnd(Applied(b, cuts).items, b.items, q)
    ensures var c := Applied(b, cuts).chain; q <= |c| && c[|c| - q..] == b.chain[|b.chain| - q..]
  {
    hide Leads, Latest;
    var k := Latest(b.chain, cuts);
    if k > 0 {
      CutLeaves(b.items, k, |b.items| - q, cuts[b.chain[k - 1].value]);
      hide Cut;
      var c := Applied(b, cuts).chain;
      var gap := |c| - |b.chain[k..]|;
      assert c == Gap(gap) + b.chain[k..];
      assert c[|c| - q..] == b.chain[k..][|b.chain[k..]| - q..];
      assert b.chain[|b.chain| - q..] == b.chain[k..][|b.chain[k..]| - q..];
    }
  }

  lemma RestoredEnd(b: Body, r: Records, q: nat)
    requires Aligned(b) && RecordsPlain(r) && q <= |b.items|
    requires forall j :: |b.chain| - q <= j < |b.chain| ==> b.chain[j].None?
    ensures SameEnd(Restored(b, r, |b.items|).items, b.items, q)
    ensures var c := Restored(b, r, |b.items|).chain; q <= |c| && c[|c| - q..] == b.chain[|b.chain| - q..]
  {
    hide Leads, Restored, RecordsPlain;
    var n := |b.items| - q;
    RestoredPlain(b, r, n, |b.items|);
    RestoredLeads(b, r, n);
    var p := Restored(b, r, n);
    assert (p.items + b.items[n..])[|p.items|..] == b.items[n..];
    assert (p.chain + b.chain[n..])[|p.chain|..] == b.chain[n..];
  }

  lemma ExpandedEnd(b: Body, r: Records, q: nat)
    requires Aligned(b) && RecordsPlain(r) && SpansPlain(b, r) && q <= |b.items|
    requires forall j :: |b.chain| - q <= j < |b.chain| ==> b.chain[j].None?
    ensures SameEnd(Expanded(b, r), b.items, q)
  {
    hide Leads, Scanned, RecordsPlain, SpansPlain;
    var n := |b.items| - q;
    ScannedPlain(b, r, n, |b.items|);
    ScannedLeads(b, r, n);
    var p := Scanned(b, r, n).result;
    assert (p + b.items[n..])[|p|..] == b.items[n..];
    assert (p + b.items[n..])[..|p|] == p;
  }

  lemma SameEndTransitive(a: seq<Item>, b: seq<Item>, c: seq<Item>, q: nat)
    requires SameEnd(a, b, q) && SameEnd(b, c, q)
    ensures SameEnd(a, c, q)
  {
    hide Leads;
  }

  lemma SameEndCutsAlike(a: seq<Item>, b: seq<Item>, q: nat, text: string)
    requires SameEnd(a, b, q)
    ensures q <= |a| && q <= |b| && Cut(a, |a| - q, text) == Cut(b, |b| - q, text)
  {
    hide Leads;
    CutAgrees(a, b, |a| - q, |b| - q, text);
  }

  lemma AssembledEnd(b: Body, r: Records, q: nat)
    requires Aligned(b) && RecordsPlain(r) && q <= |b.items| - Latest(b.chain, r.cuts)
    requires SpansPlain(Applied(b, r.cuts), r)
    requires forall j :: |b.chain| - q <= j < |b.chain| ==> b.chain[j].None?
    ensures SameEnd(Assembled(b, r), b.items, q)
  {
    hide Leads, Applied, Restored, Expanded, RecordsPlain, SpansPlain, Latest, Anchors;
    AppliedKeeps(b, r.cuts);
    var c := Applied(b, r.cuts);
    AppliedEnd(b, r.cuts, q);
    NoMarks(c.chain, b.chain, q);
    RestoredKeeps(c, r, |c.items|);
    RestoredEnd(c, r, q);
    RestoredSpans(c, r, |c.items|);
    var d := Restored(c, r, |c.items|);
    NoMarks(d.chain, c.chain, q);
    ExpandedEnd(d, r, q);
    SameEndTransitive(Expanded(d, r), d.items, c.items, q);
    SameEndTransitive(Expanded(d, r), c.items, b.items, q);
  }

  lemma NoMarks(a: seq<Mark>, b: seq<Mark>, q: nat)
    requires q <= |a| && q <= |b| && a[|a| - q..] == b[|b| - q..]
    requires forall j :: |b| - q <= j < |b| ==> b[j].None?
    ensures forall j :: |a| - q <= j < |a| ==> a[j].None?
  {
    forall j | |a| - q <= j < |a| ensures a[j].None? {
      assert a[j] == a[|a| - q..][j - (|a| - q)] == b[|b| - q..][j - (|a| - q)];
    }
  }

  /** The window `reset` builds from the assembled body, counting from its end, is the cut of the client's
      own history at the last anchored message. */
  lemma ResetIsTheCut(b: Body, r: Records, text: string)
    requires Aligned(b) && RecordsPlain(r) && SpansPlain(Applied(b, r.cuts), r)
    requires Latest(b.chain, r.cuts) < LastAnchored(b.chain)
    ensures var start := Assembled(b, r); var index := |start| - |b.chain| + LastAnchored(b.chain);
            0 <= index <= |start| && Cut(start, index, text) == Cut(b.items, LastAnchored(b.chain), text)
  {
    hide Leads, Cut, Assembled, Applied, RecordsPlain, SpansPlain, Latest, LastAnchored, SameEnd;
    var q := |b.items| - LastAnchored(b.chain);
    AssembledEnd(b, r, q);
    SameEndCutsAlike(Assembled(b, r), b.items, q, text);
  }

  lemma {:induction false} AnchorsHave(chain: seq<Mark>, a: nat)
    ensures a in Anchors(chain) <==> Some(a) in chain
    decreases |chain|
  {
    var n := |chain|;
    if n > 0 {
      AnchorsHave(chain[..n - 1], a);
      assert chain == chain[..n - 1] + [chain[n - 1]];
    }
  }

  /** The test `new_context` makes, that the last anchor is still in the body's chain, holds exactly when
      no cut is recorded there: the cut this request was built on lies before it. */
  lemma WindowOffered(b: Body, r: Records)
    requires Aligned(b) && LastAnchored(b.chain) > 0
    requires forall i, j :: 0 <= i < j < |b.chain| && b.chain[i].Some? ==> b.chain[i] != b.chain[j]
    ensures Aligned(Applied(b, r.cuts))
    ensures var t := Applied(b, r.cuts);
            b.chain[LastAnchored(b.chain) - 1] in Restored(t, r, |t.items|).chain <==> Latest(b.chain, r.cuts) < LastAnchored(b.chain)
  {
    hide Applied, Restored, Latest, LastAnchored, Anchors;
    AnchorsAfterCutSurvive(b, r);
    var t := Applied(b, r.cuts);
    var k, n := LastAnchored(b.chain), Latest(b.chain, r.cuts);
    var a := b.chain[k - 1].value;
    AnchorsHave(Restored(t, r, |t.items|).chain, a);
    AnchorsHave(b.chain[n..], a);
    if n < k {
      assert b.chain[n..][k - 1 - n] == Some(a);
    }
  }

  /** A body without anchors goes through assembly unchanged. */
  lemma NothingRecorded(b: Body, r: Records)
    requires Aligned(b) && forall j :: 0 <= j < |b.chain| ==> b.chain[j].None?
    ensures Restored(b, r, |b.items|) == b && Expanded(b, r) == b.items
  {
    RestoredPlain(b, r, 0, |b.items|);
    ScannedPlain(b, r, 0, |b.items|);
    assert Part(b, 0, |b.items|) == b;
  }

  lemma LatestIsLast(chain: seq<Mark>, cuts: map<nat, string>)
    requires LastAnchored(chain) > 0 && chain[LastAnchored(chain) - 1].value in cuts
    ensures Latest(chain, cuts) == LastAnchored(chain)
  {
    hide Latest, LastAnchored;
    assert CutAfter(chain, cuts, LastAnchored(chain));
  }

  lemma WindowAssembled(b: Body, r: Records)
    requires Aligned(b) && LastAnchored(b.chain) > 0 && b.chain[LastAnchored(b.chain) - 1].value in r.cuts
    ensures Assembled(b, r) == Cut(b.items, LastAnchored(b.chain), r.cuts[b.chain[LastAnchored(b.chain) - 1].value])
  {
    hide Latest, LastAnchored, Cut, Restored, Expanded;
    LatestIsLast(b.chain, r.cuts);
    AppliedKeeps(b, r.cuts);
    NothingRecorded(Applied(b, r.cuts), r);
  }

  /** After a window reset, too, the next request assembles what this one ended with: the window's text
      and what follows it, the transcript since the reset, then what is new. */
  lemma NextRequestContinuesWindow(b: Body, v: Body, x: Body, r: Records, text: string, next: Records, transcript: seq<Item>)
    requires Aligned(b) && RecordsPlain(r) && SpansPlain(Applied(b, r.cuts), r)
    requires Latest(b.chain, r.cuts) < LastAnchored(b.chain)
    requires b.chain[LastAnchored(b.chain) - 1].value in next.cuts
    requires next.cuts[b.chain[LastAnchored(b.chain) - 1].value] == text
    requires Reply(v, next, transcript) && Unrecorded(x, next)
    ensures var start := Assembled(b, r); var index := |start| - |b.chain| + LastAnchored(b.chain);
            var u := Joined(b, Joined(v, x));
            0 <= index <= |start| && Aligned(u) && Assembled(u, next) == Cut(start, index, text) + transcript + x.items
  {
    hide Assembled, Applied, Latest, LastAnchored, Cut, Reply, Unrecorded, RecordsPlain, SpansPlain;
    ResetIsTheCut(b, r, text);
    NextRequestContinues(b, v, x, next, transcript);
    WindowAssembled(b, next);
  }
}
