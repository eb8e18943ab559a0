/**
 Rewriting a history before it goes upstream: cuts (compaction.py) and restored reasoning
 (`MemoryKernel.restore_reasoning` in kernel.py), both keeping the body aligned with its anchor chain.

 An anchor is a number; `None` is the empty anchor of a message that has none. A cut index is modelled
 as the number of messages it replaces, so "no cut" (-1) is 0.
 */
module Cuts {
  import opened Basics

  datatype Role = Leading | Assistant | Thinking | Other
  /** `Leading` stands for system and developer messages, `Thinking` for separate reasoning items. */
  datatype Item = Item(role: Role, content: string, thought: Option<string>)
  type Mark = Option<nat>

  datatype Body = Body(items: seq<Item>, chain: seq<Mark>)

  /** Recorded reasoning: put into the reply itself, or before it as items of its own. */
  datatype Thought = Inline(thought: string) | Separate(items: seq<Item>)
  datatype Hidden = Hidden(visible: int, messages: seq<Item>)
  datatype Records = Records(cuts: map<nat, string>, hidden: map<nat, Hidden>,
                             thoughts: map<nat, Thought>, asText: set<nat>)

  predicate Aligned(b: Body) {
    |b.items| == |b.chain|
  }

  function Joined(a: Body, b: Body): Body {
    Body(a.items + b.items, a.chain + b.chain)
  }

  // ---------------------------------------------------------------- cutting

  /** The system and developer messages, in order. */
  function Leads(s: seq<Item>): seq<Item> {
    var n := |s|;
    if n == 0 then [] else Leads(s[..n - 1]) + if s[n - 1].role == Leading then [s[n - 1]] else []
  }

  predicate Plain(s: seq<Item>) {
    forall i :: 0 <= i < |s| ==> s[i].role != Leading
  }

  function Notice(text: string): Item {
    Item(Other, text, None)
  }

  /** `cut_messages`: of the first `k` messages only the leading ones are left, followed by the cut's text. */
  function Cut(messages: seq<Item>, k: nat, text: string): seq<Item>
    requires k <= |messages|
  {
    Leads(messages[..k]) + [Notice(text)] + messages[k..]
  }

  lemma {:induction false} LeadsConcat(a: seq<Item>, b: seq<Item>)
    ensures Leads(a + b) == Leads(a) + Leads(b)
    decreases |b|
  {
    var n := |b|;
    if n == 0 {
      assert a + b == a;
    } else {
      LeadsConcat(a, b[..n - 1]);
      assert (a + b)[..|a + b| - 1] == a + b[..n - 1];
    }
  }

  lemma {:induction false} LeadsOfPlain(s: seq<Item>)
    requires Plain(s)
    ensures Leads(s) == []
    decreases |s|
  {
    if s != [] {
      LeadsOfPlain(s[..|s| - 1]);
    }
  }

  lemma {:induction false} LeadsTwice(s: seq<Item>)
    ensures Leads(Leads(s)) == Leads(s)
    decreases |s|
  {
    var n := |s|;
    if n > 0 {
      LeadsTwice(s[..n - 1]);
      var last := if s[n - 1].role == Leading then [s[n - 1]] else [];
      assert Leads(last) == last;
      LeadsConcat(Leads(s[..n - 1]), last);
    }
  }

  /** Two histories that agree after the cut, and in the system messages before it, are cut alike. */
  lemma CutAgrees(a: seq<Item>, b: seq<Item>, i: nat, j: nat, text: string)
    requires i <= |a| && j <= |b| && a[i..] == b[j..] && Leads(a[..i]) == Leads(b[..j])
    ensures Cut(a, i, text) == Cut(b, j, text)
  {
  }

  /** What a cut leaves: from any later point on, the same tail after the same system messages. */
  lemma CutLeaves(m: seq<Item>, i: nat, j: nat, text: string)
    requires i <= j <= |m|
    ensures var c := Cut(m, i, text); var k := |c| - |m| + j;
            0 <= k <= |c| && c[k..] == m[j..] && Leads(c[..k]) == Leads(m[..j])
  {
    var c := Cut(m, i, text);
    var head := Leads(m[..i]) + [Notice(text)];
    var k := |head| + j - i;
    assert |c| - |m| + j == k;
    assert c[k..] == m[j..];
    assert c[..k] == head + m[i..j];
    assert m[..j] == m[..i] + m[i..j];
    LeadsConcat(head, m[i..j]);
    LeadsConcat(Leads(m[..i]), [Notice(text)]);
    LeadsOfPlain([Notice(text)]);
    LeadsTwice(m[..i]);
    LeadsConcat(m[..i], m[i..j]);
  }

  /** Cutting a cut history at a later or equal original position is cutting the original there. */
  lemma CutAbsorbs(m: seq<Item>, i: nat, j: nat, first: string, second: string)
    requires i <= j <= |m|
    ensures var c := Cut(m, i, first); var k := |c| - |m| + j; 0 <= k <= |c| && Cut(c, k, second) == Cut(m, j, second)
  {
    CutLeaves(m, i, j, first);
    var c := Cut(m, i, first);
    CutAgrees(c, m, |c| - |m| + j, j, second);
  }

  lemma {:induction false} LeadsLead(s: seq<Item>)
    ensures forall i :: 0 <= i < |Leads(s)| ==> Leads(s)[i].role == Leading
    ensures forall x :: x in s && x.role == Leading ==> x in Leads(s)
    decreases |s|
  {
    if s != [] {
      LeadsLead(s[..|s| - 1]);
      assert s == s[..|s| - 1] + [s[|s| - 1]];
    }
  }

  /** A cut history reads: the system messages of the replaced part, one message with the cut's text, and the
      rest untouched. */
  lemma CutReads(m: seq<Item>, k: nat, text: string)
    requires k <= |m|
    ensures var c := Cut(m, k, text);
            var at := |c| - (|m| - k) - 1;
            && 0 <= at < |c|
            && c[at].content == text && c[at].role != Leading && c[at + 1..] == m[k..]
            && (forall i :: 0 <= i < at ==> c[i].role == Leading)
            && (forall i :: 0 <= i < k && m[i].role == Leading ==> m[i] in c[..at])
  {
    LeadsLead(m[..k]);
    var c := Cut(m, k, text);
    assert c[..|c| - (|m| - k) - 1] == Leads(m[..k]);
    forall i | 0 <= i < k && m[i].role == Leading ensures m[i] in Leads(m[..k]) {
      assert m[..k][i] == m[i];
    }
  }

  // ---------------------------------------------------------------- applying the latest cut

  predicate CutAfter(chain: seq<Mark>, cuts: map<nat, string>, k: nat) {
    0 < k <= |chain| && chain[k - 1].Some? && chain[k - 1].value in cuts
  }

  /** `active_cut`: how many messages the latest recorded cut replaces, 0 without one. */
  function Latest(chain: seq<Mark>, cuts: map<nat, string>): (k: nat)
    ensures k <= |chain| && (k > 0 ==> CutAfter(chain, cuts, k))
    ensures forall j :: k < j <= |chain| ==> !CutAfter(chain, cuts, j)
  {
    var n := |chain|;
    if n == 0 || CutAfter(chain, cuts, n) then n
    else
      var k := Latest(chain[..n - 1], cuts);
      assert forall j :: 0 < j < n ==> (CutAfter(chain, cuts, j) <==> CutAfter(chain[..n - 1], cuts, j));
      k
  }

  function Gap(n: nat): seq<Mark> {
    seq(n, _ => None)
  }

  function Applied(b: Body, cuts: map<nat, string>): Body
    requires Aligned(b)
  {
    var k := Latest(b.chain, cuts);
    if k == 0 then b
    else
      var items := Cut(b.items, k, cuts[b.chain[k - 1].value]);
      Body(items, Gap(|items| - (|b.chain| - k)) + b.chain[k..])
  }

  /** The non-empty anchors, in order. */
  function Anchors(chain: seq<Mark>): seq<nat> {
    var n := |chain|;
    if n == 0 then [] else Anchors(chain[..n - 1]) + if chain[n - 1].Some? then [chain[n - 1].value] else []
  }

  lemma {:induction false} AnchorsConcat(a: seq<Mark>, b: seq<Mark>)
    ensures Anchors(a + b) == Anchors(a) + Anchors(b)
    decreases |b|
  {
    var n := |b|;
    if n == 0 {
      assert a + b == a;
    } else {
      AnchorsConcat(a, b[..n - 1]);
      assert (a + b)[..|a + b| - 1] == a + b[..n - 1];
    }
  }

  lemma {:induction false} AnchorsOfGap(n: nat)
    ensures Anchors(Gap(n)) == []
  {
    if n > 0 {
      AnchorsOfGap(n - 1);
      assert Gap(n)[..n - 1] == Gap(n - 1);
    }
  }

  lemma AppliedKeeps(b: Body, cuts: map<nat, string>)
    requires Aligned(b)
    ensures Aligned(Applied(b, cuts)) && Anchors(Applied(b, cuts).chain) == Anchors(b.chain[Latest(b.chain, cuts)..])
  {
    var k := Latest(b.chain, cuts);
    var t := Applied(b, cuts);
    if k == 0 {
      assert b.chain[0..] == b.chain;
    } else {
      var gap := |t.items| - (|b.chain| - k);
      AnchorsOfGap(gap);
      AnchorsConcat(Gap(gap), b.chain[k..]);
    }
  }

  /** Applying a cut puts the text of the latest recorded one before everything after its anchor; without one
      nothing changes. */
  lemma AppliedReads(b: Body, cuts: map<nat, string>, k: nat)
    requires Aligned(b) && k <= |b.chain| && (k > 0 ==> b.chain[k - 1].Some? && b.chain[k - 1].value in cuts)
    requires forall j :: k <= j < |b.chain| && b.chain[j].Some? ==> b.chain[j].value !in cuts
    ensures var t := Applied(b, cuts);
            var at := |t.items| - (|b.items| - k) - 1;
            if k == 0 then t == b
            else
              && 0 <= at < |t.items| == |t.chain|
              && t.items[at].content == cuts[b.chain[k - 1].value]
              && t.items[at + 1..] == b.items[k..] && t.chain[at + 1..] == b.chain[k..]
              && (forall i :: 0 <= i < at ==> t.items[i].role == Leading)
              && (forall i :: 0 <= i <= at ==> t.chain[i].None?)
  {
    hide Cut;
    LatestIs(b.chain, cuts, k);
    if k > 0 {
      CutReads(b.items, k, cuts[b.chain[k - 1].value]);
    }
  }

  lemma LatestIs(chain: seq<Mark>, cuts: map<nat, string>, k: nat)
    requires k <= |chain| && (k > 0 ==> chain[k - 1].Some? && chain[k - 1].value in cuts)
    requires forall j :: k <= j < |chain| && chain[j].Some? ==> chain[j].value !in cuts
    ensures Latest(chain, cuts) == k
  {
    var n := Latest(chain, cuts);
    assert k > 0 ==> CutAfter(chain, cuts, k);
  }

  // ---------------------------------------------------------------- restoring reasoning

  /** How many items the hidden transcript recorded at an anchor replaces, 0 for none. */
  function Span(chain: seq<Mark>, r: Records, j: nat): nat
    requires j < |chain|
  {
    if chain[j].Some? && chain[j].value in r.hidden && 0 < r.hidden[chain[j].value].visible <= j + 1
    then r.hidden[chain[j].value].visible else 0
  }

  /** The item lies in a span that a hidden transcript replaces. */
  predicate Covered(chain: seq<Mark>, r: Records, i: nat) {
    exists j :: i <= j < |chain| && j + 1 - Span(chain, r, j) <= i
  }

  /** The adapters' `restore_reasoning`; a reply that still carries reasoning comes back unchanged. */
  function Refilled(previous: seq<Item>, message: Item, value: Thought): (items: seq<Item>)
    ensures items != []
  {
    match value
    case Inline(thought) =>
      if message.role != Assistant || message.thought.Some? then [message]
      else [message.(thought := Some(thought))]
    case Separate(items) =>
      if previous != [] && Last(previous).role == Thinking then [message] else items + [message]
  }

  predicate Restores(b: Body, r: Records, i: nat)
    requires Aligned(b) && i < |b.items|
  {
    && b.chain[i].Some?
    && b.chain[i].value in r.thoughts
    && b.chain[i].value !in r.asText
    && !Covered(b.chain, r, i)
  }

  function ItemsFor(previous: seq<Item>, b: Body, r: Records, i: nat): (items: seq<Item>)
    requires Aligned(b) && i < |b.items|
    ensures items != []
  {
    if Restores(b, r, i) then Refilled(previous, b.items[i], r.thoughts[b.chain[i].value]) else [b.items[i]]
  }

  /** The first `n` messages with their reasoning back; inserted items get no anchor. */
  function Restored(b: Body, r: Records, n: nat): Body
    requires Aligned(b) && n <= |b.items|
  {
    if n == 0 then Body([], [])
    else
      var p := Restored(b, r, n - 1);
      var items := ItemsFor(p.items, b, r, n - 1);
      Joined(p, Body(items, Gap(|items| - 1) + [b.chain[n - 1]]))
  }

  lemma AnchorsAfterGap(chain: seq<Mark>, gap: nat, mark: Mark)
    ensures Anchors(chain + (Gap(gap) + [mark])) == Anchors(chain + [mark])
  {
    AnchorsOfGap(gap);
    AnchorsConcat(chain, Gap(gap) + [mark]);
    AnchorsConcat(Gap(gap), [mark]);
    AnchorsConcat(chain, [mark]);
  }

  /** Restoring keeps the chain aligned with the body, and every anchor in its order. */
  lemma {:induction false} RestoredKeeps(b: Body, r: Records, n: nat)
    requires Aligned(b) && n <= |b.items|
    ensures Aligned(Restored(b, r, n)) && Anchors(Restored(b, r, n).chain) == Anchors(b.chain[..n])
    decreases n
  {
    hide Anchors, ItemsFor;
    if n > 0 {
      RestoredKeeps(b, r, n - 1);
      var p := Restored(b, r, n - 1);
      AnchorsAfterGap(p.chain, |ItemsFor(p.items, b, r, n - 1)| - 1, b.chain[n - 1]);
      AnchorsConcat(p.chain, [b.chain[n - 1]]);
      AnchorsConcat(b.chain[..n - 1], [b.chain[n - 1]]);
      assert b.chain[..n] == b.chain[..n - 1] + [b.chain[n - 1]];
    } else {
      assert b.chain[..n] == Restored(b, r, n).chain;
    }
  }

  lemma {:induction false} RestoredPrefix(b: Body, r: Records, i: nat, n: nat)
    requires Aligned(b) && i <= n <= |b.items|
    ensures Restored(b, r, i).items <= Restored(b, r, n).items && Restored(b, r, i).chain <= Restored(b, r, n).chain
    decreases n
  {
    hide ItemsFor;
    if i < n {
      RestoredPrefix(b, r, i, n - 1);
    }
  }

  lemma RestoredSlice(b: Body, r: Records, i: nat)
    requires Aligned(b) && i < |b.items|
    ensures var p, q, u := Restored(b, r, i), Restored(b, r, i + 1), Restored(b, r, |b.items|);
            && |p.items| < |q.items| <= |u.items| && |q.items| <= |u.chain|
            && u.items[..|p.items|] == p.items
            && u.items[|p.items|..|q.items|] == ItemsFor(p.items, b, r, i)
            && u.chain[|q.items| - 1] == b.chain[i]
  {
    hide ItemsFor, Restores, Anchors;
    RestoredPrefix(b, r, i, i + 1);
    RestoredPrefix(b, r, i + 1, |b.items|);
    RestoredKeeps(b, r, i);
    RestoredKeeps(b, r, i + 1);
    var p, q, u := Restored(b, r, i), Restored(b, r, i + 1), Restored(b, r, |b.items|);
    var items := ItemsFor(p.items, b, r, i);
    assert q == Joined(p, Body(items, Gap(|items| - 1) + [b.chain[i]]));
    assert u.items[..|q.items|] == q.items && u.chain[..|q.chain|] == q.chain;
    assert u.items[..|p.items|] == q.items[..|p.items|];
    assert u.items[|p.items|..|q.items|] == q.items[|p.items|..];
  }

  lemma SliceEnds<T>(s: seq<T>, start: nat, at: nat)
    requires start <= at < |s|
    ensures s[start..at + 1][at - start] == s[at] && s[start..at + 1][..at - start] == s[start..at]
  {
  }

  /** Where a message ends up and what is restored with it: a reply without reasoning gets the recorded thought,
      or the recorded items before it unless one is there already. Every other message stays as it is. */
  lemma RestoredReads(b: Body, r: Records, i: nat) returns (start: nat, at: nat)
    requires Aligned(b) && i < |b.items|
    ensures start == |Restored(b, r, i).items| && at + 1 == |Restored(b, r, i + 1).items|
    ensures var u := Restored(b, r, |b.items|);
            var message := b.items[i];
            && start <= at < |u.items| && at < |u.chain| && u.chain[at] == b.chain[i]
            && if !Restores(b, r, i) then at == start && u.items[at] == message
               else match r.thoughts[b.chain[i].value]
                    case Inline(thought) =>
                      && at == start
                      && u.items[at] == message.(thought := if message.role == Assistant && message.thought.None?
                                                            then Some(thought) else message.thought)
                    case Separate(items) =>
                      && u.items[at] == message
                      && if start > 0 && u.items[start - 1].role == Thinking then at == start
                         else at == start + |items| && u.items[start..at] == items
  {
    hide Restored, Covered;
    RestoredSlice(b, r, i);
    var p, q, u := Restored(b, r, i), Restored(b, r, i + 1), Restored(b, r, |b.items|);
    start, at := |p.items|, |q.items| - 1;
    var slice := u.items[start..at + 1];
    SliceEnds(u.items, start, at);
    assert start > 0 ==> Last(p.items) == u.items[..start][start - 1] == u.items[start - 1];
  }

  /** After the latest cut is applied and reasoning restored, body and chain have one length, and the
      chain's anchors are exactly those after the cut, in order. */
  lemma AnchorsAfterCutSurvive(b: Body, r: Records)
    requires Aligned(b)
    ensures Aligned(Applied(b, r.cuts))
    ensures var t := Applied(b, r.cuts); var u := Restored(t, r, |t.items|);
            Aligned(u) && Anchors(u.chain) == Anchors(b.chain[Latest(b.chain, r.cuts)..])
  {
    AppliedKeeps(b, r.cuts);
    var t := Applied(b, r.cuts);
    RestoredKeeps(t, r, |t.items|);
    assert t.chain[..|t.items|] == t.chain;
  }

  function Range(lo: nat, hi: nat): (r: set<nat>)
    requires lo <= hi
    ensures forall i: nat :: i in r <==> lo <= i < hi
    decreases hi - lo
  {
    if lo == hi then {} else Range(lo, hi - 1) + {hi - 1}
  }

  /** The part of a prepared request that assembly rewrites in place. */
  class Request {
    var items: seq<Item>
    var bodyChain: seq<Mark>
    const captureChain: seq<Mark>
    const records: Records

    ghost function Now(): Body
      reads this
    {
      Body(items, bodyChain)
    }

    constructor (items: seq<Item>, chain: seq<Mark>, records: Records)
      ensures Now() == Body(items, chain) && captureChain == chain && this.records == records
    {
      this.items, bodyChain, captureChain, this.records := items, chain, chain, records;
    }

    method ApplyCut()
      requires Aligned(Now()) && captureChain == bodyChain
      modifies this
      ensures Now() == Applied(old(Now()), records.cuts) && Aligned(Now())
    {
      AppliedKeeps(Now(), records.cuts);
      var k := Latest(captureChain, records.cuts);
      if k > 0 {
        var rest := bodyChain[k..];
        items := Cut(items, k, records.cuts[captureChain[k - 1].value]);
        bodyChain := Gap(|items| - |rest|) + rest;
      }
    }

    method CoveredItems() returns (covered: set<nat>)
      requires Aligned(Now())
      ensures forall i: nat :: i < |items| ==> (i in covered <==> Covered(bodyChain, records, i))
    {
      covered := {};
      for index := 0 to |bodyChain|
        invariant forall i: nat :: i in covered <==> exists j :: 0 <= j < index && i <= j && j + 1 - Span(bodyChain, records, j) <= i
      {
        var count := Span(bodyChain, records, index);
        covered := covered + Range(index + 1 - count, index + 1);
      }
    }

    method RestoreReasoning()
      requires Aligned(Now())
      modifies this
      ensures Now() == Restored(old(Now()), records, |old(items)|) && Aligned(Now())
      ensures Anchors(bodyChain) == Anchors(old(bodyChain))
    {
      ghost var b := Now();
      var covered := CoveredItems();
      var messages, chain: seq<Mark> := [], [];
      for index := 0 to |items|
        invariant Body(messages, chain) == Restored(b, records, index)
      {
        var message, anchor := items[index], bodyChain[index];
        var restored := [message];
        if anchor.Some? && anchor.value in records.thoughts && anchor.value !in records.asText && index !in covered {
          restored := Refilled(messages, message, records.thoughts[anchor.value]);
        }
        messages := messages + restored;
        chain := chain + (Gap(|restored| - 1) + [anchor]);
      }
      RestoredKeeps(b, records, |items|);
      assert b.chain[..|items|] == b.chain;
      items, bodyChain := messages, chain;
    }
  }
}
