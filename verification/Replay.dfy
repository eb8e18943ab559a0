/**
 Expanding hidden tool transcripts (`replay_hidden` in tool_protocols/__init__.py), assembly as a whole
 (`MemoryKernel.assemble` in kernel.py), and the law both serve: the next request's assembled history
 is the history this request ended with.
 */
module Replay {
  import opened Basics
  import opened Cuts

  /** The loop's state: the items so far, and where each message's place in them began. */
  datatype Scan = Scan(result: seq<Item>, offsets: seq<nat>)

  /** One turn of the loop: add a message, then let a transcript replace the last `count` messages.
      A start beyond the end of the list clamps to it, as slices do. */
  function Advanced(p: Scan, item: Item, count: nat, transcript: seq<Item>): Scan
    requires count <= |p.offsets| + 1
  {
    var result, offsets := p.result + [item], p.offsets + [|p.result|];
    if count == 0 then Scan(result, offsets)
    else Scan(result[..Min(offsets[|offsets| - count], |result|)] + transcript, offsets)
  }

  function Transcript(chain: seq<Mark>, r: Records, j: nat): seq<Item>
    requires j < |chain|
  {
    if Span(chain, r, j) == 0 then [] else r.hidden[chain[j].value].messages
  }

  /** The loop after `n` messages. */
  function Scanned(b: Body, r: Records, n: nat): (s: Scan)
    requires Aligned(b) && n <= |b.items|
    ensures |s.offsets| == n
  {
    if n == 0 then Scan([], [])
    else Advanced(Scanned(b, r, n - 1), b.items[n - 1], Span(b.chain, r, n - 1), Transcript(b.chain, r, n - 1))
  }

  function Expanded(b: Body, r: Records): seq<Item>
    requires Aligned(b)
  {
    Scanned(b, r, |b.items|).result
  }

  method ReplayHidden(messages: seq<Item>, chain: seq<Mark>, r: Records) returns (result: seq<Item>)
    requires |messages| == |chain|
    ensures result == Expanded(Body(messages, chain), r)
  {
    ghost var b := Body(messages, chain);
    var offsets: seq<nat> := [];
    result := [];
    for index := 0 to |messages|
      invariant Scan(result, offsets) == Scanned(b, r, index)
    {
      offsets := offsets + [|result|];
      result := result + [messages[index]];
      var anchor := chain[index];
      if anchor.Some? && anchor.value in r.hidden {
        var record := r.hidden[anchor.value];
        if 0 < record.visible <= index + 1 {
          result := result[..Min(offsets[index + 1 - record.visible], |result|)] + record.messages;
        }
      }
    }
  }

  /** `assemble` with gateway tools active: cut, restore, expand. */
  function Assembled(b: Body, r: Records): seq<Item>
    requires Aligned(b)
  {
    AppliedKeeps(b, r.cuts);
    var t := Applied(b, r.cuts);
    RestoredKeeps(t, r, |t.items|);
    Expanded(Restored(t, r, |t.items|), r)
  }

  // ---------------------------------------------------------------- a reply and what follows it

  ghost predicate Uncut(chain: seq<Mark>, cuts: map<nat, string>) {
    forall j :: 0 <= j < |chain| && chain[j].Some? ==> chain[j].value !in cuts
  }

  /** No transcript recorded in this part of the history replaces anything before it. */
  ghost predicate Fits(chain: seq<Mark>, r: Records) {
    forall j :: 0 <= j < |chain| && chain[j].Some? && chain[j].value in r.hidden ==> r.hidden[chain[j].value].visible <= j + 1
  }

  /** The visible form of a reply whose transcript `persist` recorded at its last anchor. */
  ghost predicate Reply(v: Body, r: Records, transcript: seq<Item>) {
    && Aligned(v) && v.items != [] && Last(v.chain).Some?
    && Last(v.chain).value in r.hidden
    && r.hidden[Last(v.chain).value] == Hidden(|v.items|, transcript)
    && Fits(v.chain, r)
    && Uncut(v.chain, r.cuts)
  }

  /** Messages the gateway has recorded nothing about. */
  ghost predicate Unrecorded(x: Body, r: Records) {
    && Aligned(x)
    && (forall j :: 0 <= j < |x.chain| && x.chain[j].Some? ==>
          x.chain[j].value !in r.hidden && x.chain[j].value !in r.thoughts)
    && Uncut(x.chain, r.cuts)
  }

  // ---------------------------------------------------------------- each pass, continued

  lemma LatestJoined(a: seq<Mark>, b: seq<Mark>, cuts: map<nat, string>)
    requires Uncut(b, cuts)
    ensures Latest(a + b, cuts) == Latest(a, cuts)
  {
    hide Latest;
    var k, j := Latest(a + b, cuts), Latest(a, cuts);
    assert j > 0 ==> CutAfter(a + b, cuts, j);
    assert forall i :: |a| <= i < |a + b| ==> (a + b)[i] == b[i - |a|];
    assert 0 < k <= |a| ==> CutAfter(a, cuts, k);
  }

  lemma AppliedJoined(b: Body, t: Body, cuts: map<nat, string>)
    requires Aligned(b) && Aligned(t) && Uncut(t.chain, cuts)
    ensures Applied(Joined(b, t), cuts) == Joined(Applied(b, cuts), t)
  {
    hide Latest, Uncut;
    LatestJoined(b.chain, t.chain, cuts);
    var k := Latest(b.chain, cuts);
    if k > 0 {
      var text := cuts[b.chain[k - 1].value];
      var u := Joined(b, t);
      assert u.items[..k] == b.items[..k] && u.items[k..] == b.items[k..] + t.items;
      assert Cut(u.items, k, text) == Cut(b.items, k, text) + t.items;
      assert u.chain[k..] == b.chain[k..] + t.chain;
    }
  }

  /** Restoring a prefix needs only that prefix, and which of its items are covered. */
  lemma {:induction false} RestoredPrefix(b: Body, c: Body, r: Records, n: nat)
    requires Aligned(b) && Aligned(c) && n <= |b.items| && n <= |c.items|
    requires b.items[..n] == c.items[..n] && b.chain[..n] == c.chain[..n]
    requires forall i: nat :: i < n ==> (Covered(b.chain, r, i) <==> Covered(c.chain, r, i))
    ensures Restored(b, r, n) == Restored(c, r, n)
    decreases n
  {
    hide Covered;
    if n > 0 {
      assert b.items[..n - 1] == b.items[..n][..n - 1] && b.chain[..n - 1] == b.chain[..n][..n - 1];
      assert c.items[..n - 1] == c.items[..n][..n - 1] && c.chain[..n - 1] == c.chain[..n][..n - 1];
      RestoredPrefix(b, c, r, n - 1);
      assert b.items[n - 1] == b.items[..n][n - 1] == c.items[..n][n - 1] == c.items[n - 1];
      assert b.chain[n - 1] == b.chain[..n][n - 1] == c.chain[..n][n - 1] == c.chain[n - 1];
    }
  }

  function One(b: Body, i: nat): Body
    requires Aligned(b) && i < |b.items|
  {
    Body([b.items[i]], [b.chain[i]])
  }

  function Part(b: Body, lo: nat, hi: nat): Body
    requires Aligned(b) && lo <= hi <= |b.items|
  {
    Body(b.items[lo..hi], b.chain[lo..hi])
  }

  lemma RestoredKept(b: Body, r: Records, i: nat)
    requires Aligned(b) && i < |b.items| && !Restores(b, r, i)
    ensures Restored(b, r, i + 1) == Joined(Restored(b, r, i), One(b, i))
  {
    hide Restores;
    assert Gap(0) + [b.chain[i]] == [b.chain[i]];
  }

  lemma JoinedPart(p: Body, b: Body, lo: nat, hi: nat)
    requires Aligned(b) && lo <= hi < |b.items|
    ensures Joined(Joined(p, Part(b, lo, hi)), One(b, hi)) == Joined(p, Part(b, lo, hi + 1))
  {
    assert p.items + b.items[lo..hi + 1] == p.items + b.items[lo..hi] + [b.items[hi]];
    assert p.chain + b.chain[lo..hi + 1] == p.chain + b.chain[lo..hi] + [b.chain[hi]];
  }

  /** Items that nothing is restored to are passed on. */
  lemma {:induction false} RestoredPlain(b: Body, r: Records, lo: nat, n: nat)
    requires Aligned(b) && lo <= n <= |b.items|
    requires forall i: nat :: lo <= i < n ==> !Restores(b, r, i)
    ensures Restored(b, r, n) == Joined(Restored(b, r, lo), Part(b, lo, n))
    decreases n
  {
    hide Restores, Restored, Joined, Part;
    if n > lo {
      RestoredPlain(b, r, lo, n - 1);
      RestoredKept(b, r, n - 1);
      JoinedPart(Restored(b, r, lo), b, lo, n - 1);
    } else {
      NothingJoined(Restored(b, r, lo), b, lo);
    }
  }

  lemma NothingJoined(p: Body, b: Body, lo: nat)
    requires Aligned(b) && lo <= |b.items|
    ensures Joined(p, Part(b, lo, lo)) == p
  {
  }

  lemma PartOfJoined(b: Body, t: Body)
    requires Aligned(b) && Aligned(t)
    ensures var u := Joined(b, t); Aligned(u) && Part(u, |b.items|, |u.items|) == t
    ensures var u := Joined(b, t); u.items[..|b.items|] == b.items[..|b.items|] && u.chain[..|b.items|] == b.chain[..|b.items|]
  {
  }

  lemma CoveredBefore(a: seq<Mark>, b: seq<Mark>, r: Records, i: nat)
    requires Fits(b, r) && i < |a|
    ensures Covered(a + b, r, i) <==> Covered(a, r, i)
  {
    assert forall j :: |a| <= j < |a + b| ==> (a + b)[j] == b[j - |a|];
    if Covered(a + b, r, i) {
      var j :| i <= j < |a + b| && j + 1 - Span(a + b, r, j) <= i;
      if j < |a| {
        assert Span(a, r, j) == Span(a + b, r, j);
      }
    }
    if Covered(a, r, i) {
      var j :| i <= j < |a| && j + 1 - Span(a, r, j) <= i;
      assert Span(a + b, r, j) == Span(a, r, j);
    }
  }

  /** A reply's visible items are left alone, because its transcript will replace them. */
  lemma RestoredJoined(b: Body, v: Body, x: Body, r: Records, transcript: seq<Item>)
    requires Aligned(b) && Reply(v, r, transcript) && Unrecorded(x, r)
    ensures var u := Joined(b, Joined(v, x)); Aligned(u) && Restored(u, r, |u.items|) == Joined(Restored(b, r, |b.items|), Joined(v, x))
  {
    var t := Joined(v, x);
    var u := Joined(b, t);
    var n, m := |b.items|, |u.items|;
    FitsJoined(v, x, r);
    hide Restored, Restores, Covered, Fits, Unrecorded;
    forall i: nat | i < n ensures Covered(u.chain, r, i) <==> Covered(b.chain, r, i) {
      CoveredBefore(b.chain, t.chain, r, i);
    }
    PartOfJoined(b, t);
    RestoredPrefix(u, b, r, n);
    forall i: nat | n <= i < m ensures !Restores(u, r, i) {
      ReplyIsKept(b, v, x, r, transcript, i);
    }
    RestoredPlain(u, r, n, m);
  }

  lemma FitsJoined(v: Body, x: Body, r: Records)
    requires Aligned(v) && Fits(v.chain, r) && Unrecorded(x, r)
    ensures Fits(Joined(v, x).chain, r)
  {
    var c := Joined(v, x).chain;
    assert forall j :: |v.chain| <= j < |c| ==> c[j] == x.chain[j - |v.chain|];
  }

  lemma ReplyIsKept(b: Body, v: Body, x: Body, r: Records, transcript: seq<Item>, i: nat)
    requires Aligned(b) && Reply(v, r, transcript) && Unrecorded(x, r)
    requires |b.items| <= i < |Joined(b, Joined(v, x)).items|
    ensures Aligned(Joined(b, Joined(v, x))) && !Restores(Joined(b, Joined(v, x)), r, i)
  {
    var u := Joined(b, Joined(v, x));
    var n, w := |b.items|, |v.items|;
    if i < n + w {
      var j := n + w - 1;
      assert u.chain[j] == Last(v.chain);
      assert Span(u.chain, r, j) == w;
    } else {
      assert u.chain[i] == x.chain[i - n - w];
    }
  }

  lemma {:induction false} ScannedPrefix(b: Body, c: Body, r: Records, n: nat)
    requires Aligned(b) && Aligned(c) && n <= |b.items| && n <= |c.items|
    requires b.items[..n] == c.items[..n] && b.chain[..n] == c.chain[..n]
    ensures Scanned(b, r, n) == Scanned(c, r, n)
    decreases n
  {
    if n > 0 {
      assert b.items[..n - 1] == b.items[..n][..n - 1] && b.chain[..n - 1] == b.chain[..n][..n - 1];
      assert c.items[..n - 1] == c.items[..n][..n - 1] && c.chain[..n - 1] == c.chain[..n][..n - 1];
      ScannedPrefix(b, c, r, n - 1);
      assert b.items[n - 1] == b.items[..n][n - 1] == c.items[..n][n - 1] == c.items[n - 1];
      assert b.chain[n - 1] == b.chain[..n][n - 1] == c.chain[..n][n - 1] == c.chain[n - 1];
    }
  }

  /** The scan still begins with `p`, and no message from number `n` on has a place in it. */
  ghost predicate Holds(s: Scan, p: seq<Item>, n: nat) {
    p <= s.result && forall j :: n <= j < |s.offsets| ==> |p| <= s.offsets[j]
  }

  lemma HoldsAdvanced(s: Scan, p: seq<Item>, n: nat, item: Item, count: nat, transcript: seq<Item>)
    requires Holds(s, p, n) && n <= |s.offsets| && count <= |s.offsets| + 1 - n
    ensures Holds(Advanced(s, item, count, transcript), p, n)
  {
  }

  /** While a reply is being read, whatever came before it stays as it is. */
  lemma {:induction false} BeforeReplyStays(u: Body, r: Records, n: nat, m: nat)
    requires Aligned(u) && n <= m <= |u.items|
    requires forall j: nat :: n <= j < m ==> Span(u.chain, r, j) <= j + 1 - n
    ensures Holds(Scanned(u, r, m), Scanned(u, r, n).result, n)
    ensures m > n ==> Scanned(u, r, m).offsets[n] == |Scanned(u, r, n).result|
    decreases m
  {
    hide Span, Transcript;
    if m > n {
      BeforeReplyStays(u, r, n, m - 1);
      HoldsAdvanced(Scanned(u, r, m - 1), Scanned(u, r, n).result, n, u.items[m - 1], Span(u.chain, r, m - 1), Transcript(u.chain, r, m - 1));
      hide Holds;
    } else {
      hide Scanned;
    }
  }

  lemma {:induction false} ScannedPlain(u: Body, r: Records, lo: nat, n: nat)
    requires Aligned(u) && lo <= n <= |u.items|
    requires forall j: nat :: lo <= j < n ==> Span(u.chain, r, j) == 0
    ensures Scanned(u, r, n).result == Scanned(u, r, lo).result + u.items[lo..n]
    decreases n
  {
    hide Span;
    if n > lo {
      ScannedPlain(u, r, lo, n - 1);
      assert u.items[lo..n] == u.items[lo..n - 1] + [u.items[n - 1]];
    }
  }

  lemma WholeReplaced(s: Scan, p: seq<Item>, n: nat, item: Item, transcript: seq<Item>)
    requires Holds(s, p, n) && n <= |s.offsets|
    requires n < |s.offsets| ==> s.offsets[n] == |p|
    requires n == |s.offsets| ==> s.result == p
    ensures Advanced(s, item, |s.offsets| + 1 - n, transcript).result == p + transcript
  {
  }

  lemma ReplyIsReplaced(u: Body, v: Body, r: Records, n: nat, transcript: seq<Item>)
    requires Aligned(u) && Reply(v, r, transcript) && n + |v.items| <= |u.items|
    requires u.chain[n..n + |v.items|] == v.chain
    ensures Scanned(u, r, n + |v.items|).result == Scanned(u, r, n).result + transcript
  {
    var w := |v.items|;
    var m := n + w;
    forall j: nat | n <= j < m ensures Span(u.chain, r, j) <= j + 1 - n {
      assert u.chain[j] == u.chain[n..m][j - n];
    }
    assert u.chain[m - 1] == u.chain[n..m][w - 1];
    assert Span(u.chain, r, m - 1) == w && Transcript(u.chain, r, m - 1) == transcript;
    BeforeReplyStays(u, r, n, m - 1);
    hide Span, Transcript, Reply, Fits, Holds, Advanced;
    WholeReplaced(Scanned(u, r, m - 1), Scanned(u, r, n).result, n, u.items[m - 1], transcript);
  }

  lemma JoinedShape(b: Body, v: Body, x: Body)
    requires Aligned(b) && Aligned(v) && Aligned(x)
    ensures var u := Joined(b, Joined(v, x)); var n := |b.items|; var m := n + |v.items|;
            Aligned(u) && |u.items| == m + |x.items| && u.items[..n] == b.items[..n] && u.chain[..n] == b.chain[..n] &&
            u.chain[n..m] == v.chain && u.items[m..] == x.items && u.chain[m..] == x.chain
  {
  }

  /** The transcript takes the place of the whole reply, and of nothing else. */
  lemma ExpandedJoined(b: Body, v: Body, x: Body, r: Records, transcript: seq<Item>)
    requires Aligned(b) && Reply(v, r, transcript) && Unrecorded(x, r)
    ensures var u := Joined(b, Joined(v, x)); Aligned(u) && Expanded(u, r) == Expanded(b, r) + transcript + x.items
  {
    hide Joined, Scanned, Fits, Uncut;
    var u := Joined(b, Joined(v, x));
    var n := |b.items|;
    var m := n + |v.items|;
    JoinedShape(b, v, x);
    ScannedPrefix(u, b, r, n);
    ReplyIsReplaced(u, v, r, n, transcript);
    forall j: nat | m <= j < |u.items| ensures Span(u.chain, r, j) == 0 {
      assert u.chain[j] == u.chain[m..][j - m];
    }
    ScannedPlain(u, r, m, |u.items|);
    assert u.items[m..] == u.items[m..|u.items|];
  }

  /** The next request's history is this request's, then the reply's transcript, then what is new: the
      model reads back exactly what it was shown and what it wrote. */
  lemma NextRequestContinues(b: Body, v: Body, x: Body, r: Records, transcript: seq<Item>)
    requires Aligned(b) && Reply(v, r, transcript) && Unrecorded(x, r)
    ensures var u := Joined(b, Joined(v, x)); Aligned(u) && Assembled(u, r) == Assembled(b, r) + transcript + x.items
  {
    hide Reply, Unrecorded, Expanded, Restored, Applied;
    var t := Joined(v, x);
    UncutJoined(v, x, r, transcript);
    AppliedKeeps(b, r.cuts);
    AppliedJoined(b, t, r.cuts);
    var c := Applied(b, r.cuts);
    RestoredJoined(c, v, x, r, transcript);
    RestoredKeeps(c, r, |c.items|);
    ExpandedJoined(Restored(c, r, |c.items|), v, x, r, transcript);
  }

  lemma UncutJoined(v: Body, x: Body, r: Records, transcript: seq<Item>)
    requires Reply(v, r, transcript) && Unrecorded(x, r)
    ensures Aligned(Joined(v, x)) && Uncut(Joined(v, x).chain, r.cuts)
  {
  }
}
