/**
 The session-start profile and its token budget (profile.py): every part is cut to a share of
 `profile_max_tokens`, and what is put together stays within it.
 */
module Profile {
  import opened Basics

  // ---------------------------------------------------------------- estimates

  /** Quarter tokens: a CJK character counts one token and a half, any other a quarter. */
  function Unit(c: char): nat {
    if c as int >= 0x3000 then 6 else 1
  }

  function Weight(text: string): nat {
    var n := |text|;
    if n == 0 then 0 else Weight(text[..n - 1]) + Unit(text[n - 1])
  }

  function EstimateTokens(text: string): (tokens: nat)
    ensures forall budget: int :: tokens <= budget <==> Weight(text) <= 4 * budget
  {
    (Weight(text) + 3) / 4
  }

  lemma {:induction false} WeightConcat(a: string, b: string)
    ensures Weight(a + b) == Weight(a) + Weight(b)
    decreases |b|
  {
    var n := |b|;
    if n == 0 {
      assert a + b == a;
    } else {
      WeightConcat(a, b[..n - 1]);
      assert (a + b)[..|a + b| - 1] == a + b[..n - 1];
    }
  }

  lemma {:induction false} WeightCounts(text: string)
    ensures |text| <= Weight(text)
    decreases |text|
  {
    if text != "" {
      WeightCounts(text[..|text| - 1]);
    }
  }

  function Join(lines: seq<string>): string {
    var n := |lines|;
    if n == 0 then "" else if n == 1 then lines[0] else Join(lines[..n - 1]) + "\n" + lines[n - 1]
  }

  lemma {:induction false} WeightJoin(a: seq<string>, b: seq<string>)
    requires a != [] && b != []
    ensures Weight(Join(a + b)) == Weight(Join(a)) + 1 + Weight(Join(b))
    decreases |b|
  {
    var n := |b|;
    assert (a + b)[..|a + b| - 1] == a + b[..n - 1];
    var before := Join(a + b[..n - 1]);
    WeightConcat(before, "\n");
    WeightConcat(before + "\n", b[n - 1]);
    assert Weight("\n") == 1;
    if n == 1 {
      assert a + b[..0] == a;
    } else {
      WeightJoin(a, b[..n - 1]);
      WeightConcat(Join(b[..n - 1]), "\n");
      WeightConcat(Join(b[..n - 1]) + "\n", b[n - 1]);
    }
  }

  // ---------------------------------------------------------------- truncating

  predicate IsSpace(c: char) {
    var n := c as int;
    || 0x09 <= n <= 0x0d || 0x1c <= n <= 0x20 || n == 0x85 || n == 0xa0 || n == 0x1680 || 0x2000 <= n <= 0x200a
    || n == 0x2028 || n == 0x2029 || n == 0x202f || n == 0x205f || n == 0x3000
  }

  function RightStrip(text: string): (r: string)
    ensures r <= text && (r != "" ==> !IsSpace(Last(r)))
    ensures forall i :: |r| <= i < |text| ==> IsSpace(text[i])
  {
    if text != "" && IsSpace(Last(text)) then RightStrip(text[..|text| - 1]) else text
  }

  lemma WeightPrefix(a: string, b: string)
    requires a <= b
    ensures Weight(a) <= Weight(b)
  {
    assert b == a + b[|a|..];
    WeightConcat(a, b[|a|..]);
  }

  /** The text is a cut one: the longest prefix that leaves room for the suffix, without trailing blanks. */
  ghost predicate CutTo(r: string, text: string, budget: nat, suffix: string, end: nat) {
    && end < |text|
    && r == RightStrip(text[..end]) + suffix
    && Weight(text[..end]) <= 4 * (budget - EstimateTokens(suffix)) < Weight(text[..end + 1])
  }

  method Truncate(text: string, budget: nat, suffix: string) returns (r: string)
    ensures EstimateTokens(r) <= budget
    ensures EstimateTokens(text) <= budget ==> r == text
    ensures EstimateTokens(text) > budget ==>
              if EstimateTokens(suffix) > budget then r == "" else exists end :: CutTo(r, text, budget, suffix, end)
  {
    if EstimateTokens(text) <= budget {
      return text;
    }
    var remaining: int := (budget - EstimateTokens(suffix)) * 4;
    if remaining < 0 {
      return "";
    }
    ghost var room := remaining;
    assert room == 4 * (budget - EstimateTokens(suffix));
    assert text[..|text|] == text;
    var end := 0;
    while end < |text|
      invariant end <= |text| && remaining == room - Weight(text[..end]) >= 0
      invariant Weight(text) > 4 * budget >= room
    {
      assert text[..end + 1][..end] == text[..end];
      remaining := remaining - Unit(text[end]);
      if remaining < 0 {
        break;
      }
      end := end + 1;
    }
    r := RightStrip(text[..end]) + suffix;
    WeightConcat(RightStrip(text[..end]), suffix);
    WeightPrefix(RightStrip(text[..end]), text[..end]);
    assert CutTo(r, text, budget, suffix, end);
  }

  /** The lines of a text, split at newlines. */
  function SplitLines(text: string): (lines: seq<string>)
    ensures lines != []
  {
    if text == "" then [""]
    else
      var lines := SplitLines(text[..|text| - 1]);
      if Last(text) == '\n' then lines + [""]
      else lines[..|lines| - 1] + [Last(lines) + [Last(text)]]
  }

  lemma {:induction false} SplitThenJoin(text: string)
    ensures Join(SplitLines(text)) == text
    decreases |text|
  {
    if text != "" {
      var init := text[..|text| - 1];
      SplitThenJoin(init);
      var lines := SplitLines(init);
      var front := lines[..|lines| - 1];
      if Last(text) == '\n' {
        assert (lines + [""])[..|lines|] == lines;
      } else if |lines| > 1 {
        assert (front + [Last(lines) + [Last(text)]])[..|front|] == front;
        assert Join(front) + "\n" + (Last(lines) + [Last(text)]) == Join(front) + "\n" + Last(lines) + [Last(text)];
      }
      assert text == init + [Last(text)];
    }
  }

  const MIDDLE := "\n... [profile middle elided] ...\n"
  const TRUNCATED := "\n... [profile truncated]"

  /** The first eight lines and the lines from number `from` on, with a note between them. */
  function Elided(lines: seq<string>, from: nat): string
    requires 8 <= from <= |lines|
  {
    Join(lines[..8]) + MIDDLE + Join(lines[from..])
  }

  predicate ElisionFits(lines: seq<string>, from: nat, budget: nat)
    requires 8 <= from <= |lines|
  {
    EstimateTokens(Elided(lines, from)) <= budget
  }

  /** The result keeps as many of the last lines as fit. */
  ghost predicate ElidesTo(r: string, lines: seq<string>, budget: nat, from: nat) {
    && 9 <= from < |lines|
    && r == Elided(lines, from) && ElisionFits(lines, from, budget)
    && forall f :: 9 <= f < from ==> !ElisionFits(lines, f, budget)
  }

  lemma ElisionsGrow(lines: seq<string>, f: nat, g: nat, budget: nat)
    requires 8 <= f <= g < |lines| && ElisionFits(lines, f, budget)
    ensures ElisionFits(lines, g, budget)
  {
    hide Join;
    var head := Join(lines[..8]) + MIDDLE;
    WeightConcat(head, Join(lines[f..]));
    WeightConcat(head, Join(lines[g..]));
    if f < g {
      assert lines[f..] == lines[f..g] + lines[g..];
      WeightJoin(lines[f..g], lines[g..]);
    }
  }

  /** The loop over the last lines, the latest first. */
  method KeepTail(lines: seq<string>, budget: nat) returns (from: nat)
    requires |lines| > 12
    ensures 9 <= from <= |lines|
    ensures from < |lines| ==> ElisionFits(lines, from, budget)
    ensures forall f :: 9 <= f < from && f < |lines| ==> !ElisionFits(lines, f, budget)
  {
    hide ElisionFits;
    from := |lines|;
    while from > 9
      invariant 9 <= from <= |lines|
      invariant from < |lines| ==> ElisionFits(lines, from, budget)
    {
      if !ElisionFits(lines, from - 1, budget) {
        forall f | 9 <= f < from ensures !ElisionFits(lines, f, budget) {
          if ElisionFits(lines, f, budget) { ElisionsGrow(lines, f, from - 1, budget); }
        }
        return;
      }
      from := from - 1;
    }
  }

  method ElideProfile(text: string, budget: nat) returns (r: string)
    ensures EstimateTokens(r) <= budget
    ensures EstimateTokens(text) <= budget ==> r == text
    ensures EstimateTokens(text) > budget ==>
              var lines := SplitLines(text);
              if |lines| > 12 && ElisionFits(lines, |lines| - 2, budget) then exists from :: ElidesTo(r, lines, budget, from)
              else if EstimateTokens(TRUNCATED) > budget then r == ""
              else exists end :: CutTo(r, text, budget, TRUNCATED, end)
  {
    if EstimateTokens(text) <= budget {
      return text;
    }
    var lines := SplitLines(text);
    if |lines| > 12 {
      var from := KeepTail(lines, budget);
      if |lines| - from >= 2 {
        ElisionsGrow(lines, from, |lines| - 2, budget);
        assert ElidesTo(Elided(lines, from), lines, budget, from);
        return Elided(lines, from);
      }
    }
    r := Truncate(text, budget, TRUNCATED);
  }

  // ---------------------------------------------------------------- listings

  datatype Entry = Entry(name: string, summary: string)

  /** Runs of blanks become one space. */
  function Collapse(text: string): string {
    if text == "" then ""
    else
      var before := Collapse(text[..|text| - 1]);
      if !IsSpace(Last(text)) then before + [Last(text)]
      else if |text| > 1 && IsSpace(text[|text| - 2]) then before
      else before + " "
  }

  function EntryLine(e: Entry): string {
    var text := Collapse(e.summary);
    var summary := text[..Min(200, |text|)];
    "    - " + e.name + if summary != "" then " — " + summary else ""
  }

  function Decimal(n: nat): string {
    var digit := ["0123456789"[n % 10]];
    if n < 10 then digit else Decimal(n / 10) + digit
  }

  function EntryLines(entries: seq<Entry>, n: nat): (lines: seq<string>)
    requires n <= |entries|
    ensures |lines| == n
  {
    if n == 0 then [] else EntryLines(entries, n - 1) + [EntryLine(entries[n - 1])]
  }

  function MoreLine(dropped: nat, hint: string): string {
    "    ... +" + Decimal(dropped) + " more, " + hint
  }

  function TightLine(uri: string, count: nat, hint: string): string {
    "  " + uri + "/  (" + Decimal(count) + " entries, budget too tight; " + hint + ")"
  }

  function Shown(uri: string, entries: seq<Entry>, n: nat): (lines: seq<string>)
    requires n <= |entries|
    ensures |lines| == n + 1
  {
    ["  " + uri + "/"] + EntryLines(entries, n)
  }

  /** The listing that shows the first `n` entries: a note tells how many are left out. */
  function Listing(uri: string, entries: seq<Entry>, n: nat, hint: string): (lines: seq<string>)
    requires n <= |entries|
    ensures lines != []
  {
    if n == 0 then [TightLine(uri, |entries|, hint)]
    else if n == |entries| then Shown(uri, entries, n)
    else Shown(uri, entries, n) + [MoreLine(|entries| - n, hint)]
  }

  /** A budget may be absent (unbounded) or, when shares run out, negative. */
  predicate Within(lines: seq<string>, budget: Option<int>) {
    budget.None? || EstimateTokens(Join(lines)) <= budget.value
  }

  /** The listing's whole contract: it shows the longest prefix whose listing fits, if one does. */
  ghost predicate BestListing(lines: seq<string>, used: nat, dropped: nat, uri: string, entries: seq<Entry>,
                              budget: Option<int>, hint: string)
  {
    if entries == [] then lines == [] && used == 0 && dropped == 0
    else
      && dropped <= |entries|
      && (forall n :: |entries| - dropped < n <= |entries| ==> !Within(Listing(uri, entries, n, hint), budget))
      && (if lines == [] then used == 0 && dropped == |entries| && !Within(Listing(uri, entries, 0, hint), budget)
          else
            && lines == Listing(uri, entries, |entries| - dropped, hint)
            && used == EstimateTokens(Join(lines)) && Within(lines, budget))
  }

  /** More lines cost more. */
  lemma WithinPrefix(a: seq<string>, b: seq<string>, budget: Option<int>)
    requires a != [] && a <= b && Within(b, budget)
    ensures Within(a, budget)
  {
    if a < b {
      assert b == a + b[|a|..];
      WeightJoin(a, b[|a|..]);
    } else {
      assert a == b;
    }
  }

  lemma {:induction false} EntryLinesPrefix(entries: seq<Entry>, m: nat, n: nat)
    requires m <= n <= |entries|
    ensures EntryLines(entries, m) <= EntryLines(entries, n)
    decreases n
  {
    if m < n {
      EntryLinesPrefix(entries, m, n - 1);
    }
  }

  /** If the first `m` entries alone are too much, so is every listing of as many or more. */
  lemma TooMuch(uri: string, entries: seq<Entry>, m: nat, n: nat, budget: Option<int>, hint: string)
    requires 0 < m <= n <= |entries| && !Within(Shown(uri, entries, m), budget)
    ensures !Within(Listing(uri, entries, n, hint), budget)
  {
    hide Within, EntryLine, MoreLine;
    EntryLinesPrefix(entries, m, n);
    if Within(Listing(uri, entries, n, hint), budget) {
      WithinPrefix(Shown(uri, entries, m), Listing(uri, entries, n, hint), budget);
    }
  }

  /** The first loop: add entries while they fit. */
  method ShowEntries(uri: string, entries: seq<Entry>, budget: Option<int>, hint: string) returns (n: nat)
    ensures n <= |entries|
    ensures n > 0 ==> Within(Shown(uri, entries, n), budget)
    ensures forall m :: n < m <= |entries| ==> !Within(Listing(uri, entries, m, hint), budget)
  {
    hide Within, Shown, Listing;
    n := 0;
    while n < |entries|
      invariant n <= |entries| && (n > 0 ==> Within(Shown(uri, entries, n), budget))
    {
      if !Within(Shown(uri, entries, n + 1), budget) {
        forall m | n < m <= |entries| ensures !Within(Listing(uri, entries, m, hint), budget) {
          TooMuch(uri, entries, n + 1, m, budget, hint);
        }
        return;
      }
      n := n + 1;
    }
  }

  method FormatListing(uri: string, entries: seq<Entry>, budget: Option<int>, hint: string)
    returns (lines: seq<string>, used: nat, dropped: nat)
    ensures BestListing(lines, used, dropped, uri, entries, budget, hint)
  {
    hide EntryLine, MoreLine, TightLine, Shown, EntryLines;
    if entries == [] {
      return [], 0, 0;
    }
    var n := ShowEntries(uri, entries, budget, hint);
    dropped := |entries| - n;
    if dropped > 0 {
      // Give up entries one by one until the note about the rest fits too.
      while n > 0
        invariant 0 <= n == |entries| - dropped
        invariant forall m :: n < m <= |entries| ==> !Within(Listing(uri, entries, m, hint), budget)
      {
        if Within(Listing(uri, entries, n, hint), budget) {
          break;
        }
        n, dropped := n - 1, dropped + 1;
      }
    }
    lines := Listing(uri, entries, n, hint);
    used := EstimateTokens(Join(lines));
    if !Within(lines, budget) {
      return [], 0, |entries|;
    }
  }

  /** What a caller adding listings up needs: nothing costs nothing, and anything costs something. */
  lemma ListingCosts(lines: seq<string>, used: nat, dropped: nat, uri: string, entries: seq<Entry>, budget: int, hint: string)
    requires BestListing(lines, used, dropped, uri, entries, Some(budget), hint)
    ensures lines == [] ==> used == 0
    ensures lines != [] ==> 0 < used <= budget && 0 < Weight(Join(lines)) <= 4 * used
    ensures dropped <= |entries| && (dropped < |entries| ==> lines != [])
  {
    hide Weight, EntryLine, Decimal;
    if lines != [] {
      JoinNotEmpty(uri, entries, |entries| - dropped, hint);
      WeightCounts(Join(lines));
    }
  }

  lemma JoinNotEmpty(uri: string, entries: seq<Entry>, n: nat, hint: string)
    requires n <= |entries|
    ensures Join(Listing(uri, entries, n, hint)) != ""
  {
    hide EntryLine, EntryLines, MoreLine, Decimal;
    var lines := Listing(uri, entries, n, hint);
    if |lines| == 1 {
      assert lines[0][0] == ' ';
    }
  }

  // ---------------------------------------------------------------- the skill catalog

  const SKILL_USAGE := "  OpenViking skills (stored in OpenViking, not local files). Before following one, read <dir>/<name>/SKILL.md with the openviking_read tool."
  const SKILL_MORE := "search OpenViking skills to find the rest"

  datatype Group = Group(root: string, entries: seq<Entry>)

  function Count(groups: seq<Group>, n: nat): nat
    requires n <= |groups|
  {
    if n == 0 then 0 else Count(groups, n - 1) + |groups[n - 1].entries|
  }

  /** A section: its opening lines, its content and its closing line. */
  function Section(opening: seq<string>, lines: seq<string>, closing: string): string {
    Join(opening + lines + [closing])
  }

  /** The same section without content, as its cost is charged in advance. */
  function Frame(opening: seq<string>, closing: string): string {
    Join(opening) + "\n\n" + closing
  }

  lemma SectionNotEmpty(opening: seq<string>, lines: seq<string>, closing: string)
    requires opening != []
    ensures Section(opening, lines, closing) != ""
  {
    assert |opening + lines + [closing]| >= 2;
  }

  /** A section costs no more than its frame and its content apart. */
  lemma SectionCosts(opening: seq<string>, lines: seq<string>, closing: string)
    requires opening != [] && lines != []
    ensures Weight(Section(opening, lines, closing)) == Weight(Frame(opening, closing)) + Weight(Join(lines))
  {
    WeightJoin(opening, lines);
    WeightJoin(opening + lines, [closing]);
    WeightConcat(Join(opening), "\n\n");
    WeightConcat(Join(opening) + "\n\n", closing);
    assert Weight("\n\n") == 2;
  }

  /** Part of a budget is spent: the lines so far leave `used` counted, one more than they cost each time. */
  ghost predicate Charged(lines: seq<string>, used: nat) {
    if lines == [] then true else Weight(Join(lines)) + 1 <= 4 * used
  }

  lemma ChargeMore(lines: seq<string>, used: nat, part: seq<string>, cost: nat)
    requires Charged(lines, used) && (part != [] ==> Weight(Join(part)) <= 4 * cost)
    ensures Charged(lines + part, used + cost + 1)
    ensures lines + part != [] ==> Weight(Join(lines + part)) <= 4 * (used + if part == [] then 0 else cost)
  {
    hide Weight, Join;
    if lines == [] {
      assert lines + part == part;
    } else if part == [] {
      assert lines + part == lines;
    } else {
      WeightJoin(lines, part);
    }
  }

  /** A part that fits what is left keeps the lines within the whole budget. */
  lemma Charges(lines: seq<string>, used: nat, part: seq<string>, cost: nat, budget: nat)
    requires Charged(lines, used) && (lines != [] ==> 0 < Weight(Join(lines)) <= 4 * budget)
    requires part != [] ==> 0 < Weight(Join(part)) <= 4 * cost && cost <= budget - used
    ensures Charged(lines + part, used + cost + 1)
    ensures lines + part != [] ==> 0 < Weight(Join(lines + part)) <= 4 * budget
  {
    hide Weight, Join;
    ChargeMore(lines, used, part, cost);
    if lines == [] {
      assert lines + part == part;
    } else if part == [] {
      assert lines + part == lines;
    } else {
      WeightJoin(lines, part);
    }
  }

  lemma {:induction false} ProductGrows(b: nat, q: nat)
    requires b > 0
    ensures b * q >= q && (q > 0 ==> b * q >= b)
  {
    if q > 0 {
      ProductGrows(b, q - 1);
      assert b * q == b * (q - 1) + b;
    }
  }

  /** Dividing by a positive number rounds down here as it does in Python. */
  lemma ShareIsPart(a: int, b: nat)
    requires b > 0
    ensures if a >= 0 then 0 <= a / b <= a else a / b < 0
  {
    var q := a / b;
    var r := a % b;
    Quotient(a, b, q, r);
  }

  lemma Quotient(a: int, b: nat, q: int, r: nat)
    requires b > 0 && a == b * q + r && r < b
    ensures if q >= 0 then a >= q else a < 0
  {
    if q >= 0 {
      ProductGrows(b, q);
    } else {
      ProductGrows(b, -q);
      assert b * q == -(b * -q);
    }
  }

  function FullLines(g: Group): seq<string> {
    if g.entries == [] then [] else Listing(g.root, g.entries, |g.entries|, SKILL_MORE)
  }

  function FullCost(g: Group): nat {
    if g.entries == [] then 0 else EstimateTokens(Join(FullLines(g)))
  }

  /** What the groups from number `from` on cost in full. */
  function CostFrom(groups: seq<Group>, from: nat): nat
    requires from <= |groups|
    decreases |groups| - from
  {
    if from == |groups| then 0 else FullCost(groups[from]) + CostFrom(groups, from + 1)
  }

  function AllLines(groups: seq<Group>, n: nat): seq<string>
    requires n <= |groups|
  {
    if n == 0 then [] else AllLines(groups, n - 1) + FullLines(groups[n - 1])
  }

  /** With room for all of a group, all of it is listed. */
  lemma ListedInFull(lines: seq<string>, used: nat, dropped: nat, g: Group, budget: Option<int>)
    requires BestListing(lines, used, dropped, g.root, g.entries, budget, SKILL_MORE)
    requires budget.Some? ==> FullCost(g) <= budget.value
    ensures lines == FullLines(g) && used == FullCost(g) && dropped == 0
  {
    hide Weight, Join, Listing, EstimateTokens;
    if g.entries != [] {
      assert Within(Listing(g.root, g.entries, |g.entries|, SKILL_MORE), budget);
    }
  }

  /** A listing that leaves nothing out is the full one. */
  lemma NothingOmitted(lines: seq<string>, used: nat, dropped: nat, g: Group, budget: Option<int>)
    requires BestListing(lines, used, dropped, g.root, g.entries, budget, SKILL_MORE)
    ensures dropped == 0 ==> lines == FullLines(g)
  {
    hide Listing, EstimateTokens, Join, Within;
  }

  function Sum(costs: seq<nat>, from: nat): nat
    requires from <= |costs|
    decreases |costs| - from
  {
    if from == |costs| then 0 else costs[from] + Sum(costs, from + 1)
  }

  lemma {:induction false} SumIsCost(costs: seq<nat>, groups: seq<Group>, from: nat)
    requires |costs| == |groups| && from <= |groups|
    requires forall i :: 0 <= i < |groups| ==> costs[i] == FullCost(groups[i])
    ensures Sum(costs, from) == CostFrom(groups, from)
    decreases |groups| - from
  {
    hide FullCost;
    if from < |groups| {
      SumIsCost(costs, groups, from + 1);
    }
  }

  /** What each group would cost listed in full. */
  method FullCosts(groups: seq<Group>) returns (costs: seq<nat>)
    ensures |costs| == |groups| && forall i :: 0 <= i < |groups| ==> costs[i] == FullCost(groups[i])
  {
    hide BestListing, FullCost;
    costs := [];
    for n := 0 to |groups|
      invariant |costs| == n && forall i :: 0 <= i < n ==> costs[i] == FullCost(groups[i])
    {
      var lines, used, dropped := FormatListing(groups[n].root, groups[n].entries, None, SKILL_MORE);
      ListedInFull(lines, used, dropped, groups[n], None);
      costs := costs + [used];
    }
  }

  lemma NothingCharged()
    ensures Charged([], 0)
  {
  }

  /** One pass over the groups: each gets an even share of what is left, or all the others do not need. */
  method FillCatalog(groups: seq<Group>, budget: nat) returns (lines: seq<string>, dropped: nat)
    ensures lines != [] ==> 0 < Weight(Join(lines)) <= 4 * budget
    ensures dropped <= Count(groups, |groups|)
    ensures dropped < Count(groups, |groups|) ==> lines != []
    ensures dropped == 0 ==> lines == AllLines(groups, |groups|)
    ensures CostFrom(groups, 0) + |groups| <= budget + 1 ==> dropped == 0
  {
    hide Weight, Join, BestListing, Charged, Sum, Listing, EstimateTokens, FullCost, FullLines;
    assert Charged([], 0) by { NothingCharged(); }
    var costs := FullCosts(groups);
    var used: nat := 0;
    lines, dropped := [], 0;
    for index := 0 to |groups|
      invariant Charged(lines, used)
      invariant lines != [] ==> 0 < Weight(Join(lines)) <= 4 * budget
      invariant dropped <= Count(groups, index) && (dropped < Count(groups, index) ==> lines != [])
      invariant dropped == 0 ==> lines == AllLines(groups, index)
      invariant CostFrom(groups, 0) + |groups| <= budget + 1 ==>
                  && dropped == 0
                  && used + CostFrom(groups, index) + (|groups| - index) <= budget + 1
    {
      var group := groups[index];
      var remaining := budget - used;
      var share := Max(remaining / (|groups| - index), remaining - Sum(costs, index + 1));
      ShareIsPart(remaining, |groups| - index);
      var part, cost, omitted := FormatListing(group.root, group.entries, Some(share), SKILL_MORE);
      ListingCosts(part, cost, omitted, group.root, group.entries, share, SKILL_MORE);
      SumIsCost(costs, groups, index + 1);
      if FullCost(group) <= share {
        ListedInFull(part, cost, omitted, group, Some(share));
      }
      NothingOmitted(part, cost, omitted, group, Some(share));
      Charges(lines, used, part, cost, budget);
      lines := lines + part;
      used := used + cost + 1;
      dropped := dropped + omitted;
    }
  }

  const SKILLS_OPEN := ["<available-skills>", SKILL_USAGE]
  const SKILLS_CLOSE := "</available-skills>"

  function ListingBudget(budget: nat, frame: string): nat {
    Max(0, budget - EstimateTokens(frame))
  }

  /** Content within a section's listing budget makes a section within its budget. */
  lemma SectionFits(opening: seq<string>, lines: seq<string>, closing: string, budget: nat)
    requires opening != [] && lines != []
    requires 0 < Weight(Join(lines)) <= 4 * ListingBudget(budget, Frame(opening, closing))
    ensures EstimateTokens(Section(opening, lines, closing)) <= budget
  {
    SectionCosts(opening, lines, closing);
    hide Weight, Join, Section, Frame;
  }

  function WithoutSummaries(groups: seq<Group>): (r: seq<Group>)
    ensures |r| == |groups| && Count(r, |r|) == Count(groups, |groups|)
  {
    if groups == [] then []
    else
      var n := |groups| - 1;
      var last := groups[n];
      var r := WithoutSummaries(groups[..n]) + [Group(last.root, seq(|last.entries|, i requires 0 <= i < |last.entries| => Entry(last.entries[i].name, "")))];
      CountPrefix(groups, n);
      CountPrefix(r, n);
      assert r[..n] == WithoutSummaries(groups[..n]);
      r
  }

  lemma {:induction false} CountPrefix(groups: seq<Group>, n: nat)
    requires n <= |groups|
    ensures Count(groups[..n], n) == Count(groups, n)
    decreases n
  {
    if n > 0 {
      CountPrefix(groups, n - 1);
      CountPrefix(groups[..n], n - 1);
      assert groups[..n][..n - 1] == groups[..n - 1];
    }
  }

  /** Only the summaries go. */
  lemma {:induction false} SummariesGo(groups: seq<Group>, i: nat)
    requires i < |groups|
    ensures var g, r := groups[i], WithoutSummaries(groups)[i];
            && r.root == g.root && |r.entries| == |g.entries|
            && forall k :: 0 <= k < |g.entries| ==> r.entries[k] == Entry(g.entries[k].name, "")
    decreases |groups|
  {
    if i < |groups| - 1 {
      SummariesGo(groups[..|groups| - 1], i);
    }
  }

  /** What is left of a catalog that lists nothing. */
  function SkillsNote(count: nat): string {
    "<available-skills>" + Decimal(count) + " OpenViking skills; search OpenViking skills to find them.</available-skills>"
  }

  lemma NoteNotEmpty(count: nat)
    ensures SkillsNote(count) != ""
  {
  }

  /** All skills with their summaries if that fits; else all of them without, if that does; else as many as fit;
      else how many there are; else nothing. */
  method FormatSkillCatalog(groups: seq<Group>, budget: nat) returns (text: string)
    ensures EstimateTokens(text) <= budget
    ensures Count(groups, |groups|) == 0 ==> text == ""
    ensures Count(groups, |groups|) > 0 && CostFrom(WithoutSummaries(groups), 0) + |groups| <= ListingBudget(budget, Frame(SKILLS_OPEN, SKILLS_CLOSE)) + 1 ==>
              || text == Section(SKILLS_OPEN, AllLines(groups, |groups|), SKILLS_CLOSE)
              || text == Section(SKILLS_OPEN, AllLines(WithoutSummaries(groups), |groups|), SKILLS_CLOSE)
    ensures Count(groups, |groups|) > 0 && text == "" ==> EstimateTokens(SkillsNote(Count(groups, |groups|))) > budget
    ensures Count(groups, |groups|) > 0 && CostFrom(groups, 0) + |groups| <= ListingBudget(budget, Frame(SKILLS_OPEN, SKILLS_CLOSE)) + 1 ==>
              text == Section(SKILLS_OPEN, AllLines(groups, |groups|), SKILLS_CLOSE)
  {
    hide Weight, Join, EstimateTokens, WithoutSummaries, CostFrom, AllLines, Section, Frame, SkillsNote, Count, ListingBudget;
    var count := Count(groups, |groups|);
    if count == 0 {
      EmptyCosts();
      return "";
    }
    var listingBudget := ListingBudget(budget, Frame(SKILLS_OPEN, SKILLS_CLOSE));
    var lines, dropped := FillCatalog(groups, listingBudget);
    if dropped > 0 {
      lines, dropped := FillCatalog(WithoutSummaries(groups), listingBudget);
    }
    text := Section(SKILLS_OPEN, lines, SKILLS_CLOSE);
    SectionNotEmpty(SKILLS_OPEN, lines, SKILLS_CLOSE);
    if dropped < count {
      // So the second half of the source's guard never fires.
      SectionFits(SKILLS_OPEN, lines, SKILLS_CLOSE, budget);
    }
    if dropped >= count || EstimateTokens(text) > budget {
      text := SkillsNote(count);
      NoteNotEmpty(count);
    }
    if EstimateTokens(text) > budget {
      EmptyCosts();
      text := "";
    }
  }

  lemma EmptyCosts()
    ensures EstimateTokens("") == 0
  {
  }

  // ---------------------------------------------------------------- the whole profile

  /** What was fetched: the profile and its opening tag, the two memory listings, the skills. */
  datatype Fetched = Fetched(root: string, opening: string, profile: string, preferences: seq<Entry>, entities: seq<Entry>,
                             skills: seq<Group>)

  const PROFILE_CLOSE := "</user-profile>"
  const MEMORIES_OPEN := ["<available-memories>"]
  const MEMORIES_CLOSE := "</available-memories>"

  /** A part that is not empty also pays for the newline after it. */
  function Charge(text: string): nat {
    EstimateTokens(text) + if text != "" then 1 else 0
  }

  method ProfilePart(opening: string, profile: string, remaining: nat) returns (text: string)
    ensures EstimateTokens(text) <= remaining / 2
    ensures profile == "" ==> text == ""
    ensures profile != "" && EstimateTokens(profile) + EstimateTokens(Frame([opening], PROFILE_CLOSE)) <= remaining / 2 ==>
              text == Section([opening], [profile], PROFILE_CLOSE)
  {
    hide Weight, Join, SplitLines, Elided;
    text := "";
    EmptyCosts();
    if profile != "" {
      var frameCost := EstimateTokens(opening + "\n\n" + PROFILE_CLOSE);
      assert opening + "\n\n" + PROFILE_CLOSE == Frame([opening], PROFILE_CLOSE) by { JoinOne(opening); }
      var content := ElideProfile(profile, Max(0, remaining / 2 - frameCost));
      if content != "" {
        text := Section([opening], [content], PROFILE_CLOSE);
        JoinOne(content);
        WeightCounts(content);
        SectionFits([opening], [content], PROFILE_CLOSE, remaining / 2);
      }
    }
  }

  lemma JoinOne(line: string)
    ensures Join([line]) == line
  {
  }

  function Cost(lines: seq<string>): nat {
    if lines == [] then 0 else EstimateTokens(Join(lines))
  }

  /** These lines are what a listing within this budget shows. */
  ghost predicate Lists(lines: seq<string>, uri: string, entries: seq<Entry>, budget: int, hint: string) {
    exists dropped: nat :: BestListing(lines, Cost(lines), dropped, uri, entries, Some(budget), hint)
  }

  lemma ListsBest(lines: seq<string>, used: nat, dropped: nat, uri: string, entries: seq<Entry>, budget: int, hint: string)
    requires BestListing(lines, used, dropped, uri, entries, Some(budget), hint)
    ensures Lists(lines, uri, entries, budget, hint) && used == Cost(lines)
  {
    hide Listing, EstimateTokens, Join;
    assert BestListing(lines, Cost(lines), dropped, uri, entries, Some(budget), hint);
  }

  /** The two listings: preferences get half of the room, entities what is left of it. */
  ghost predicate TwoListings(pref: seq<string>, ent: seq<string>, f: Fetched, hint: string, room: nat) {
    && Lists(pref, f.root + "/preferences", f.preferences, room / 2, hint)
    && Lists(ent, f.root + "/entities", f.entities, Max(0, room - Cost(pref) - if pref != [] then 1 else 0), hint)
  }

  method MemoriesPart(f: Fetched, hint: string, remaining: nat) returns (text: string, pref: seq<string>, ent: seq<string>)
    ensures EstimateTokens(text) <= remaining
    ensures TwoListings(pref, ent, f, hint, ListingBudget(remaining, Frame(MEMORIES_OPEN, MEMORIES_CLOSE)))
    ensures text == if pref + ent == [] then "" else Section(MEMORIES_OPEN, pref + ent, MEMORIES_CLOSE)
  {
    hide Weight, Join, BestListing, Section, Frame, Lists, Cost;
    text := "";
    EmptyCosts();
    var listingBudget := ListingBudget(remaining, Frame(MEMORIES_OPEN, MEMORIES_CLOSE));
    var used, d, cost, e;
    pref, used, d := FormatListing(f.root + "/preferences", f.preferences, Some(listingBudget / 2), hint);
    ListsBest(pref, used, d, f.root + "/preferences", f.preferences, listingBudget / 2, hint);
    ListingCosts(pref, used, d, f.root + "/preferences", f.preferences, listingBudget / 2, hint);
    var rest := Max(0, listingBudget - used - if pref != [] then 1 else 0);
    ent, cost, e := FormatListing(f.root + "/entities", f.entities, Some(rest), hint);
    ListsBest(ent, cost, e, f.root + "/entities", f.entities, rest, hint);
    ListingCosts(ent, cost, e, f.root + "/entities", f.entities, rest, hint);
    if pref != [] || ent != [] {
      ListingsFit(pref, used, ent, cost, listingBudget);
      SectionFits(MEMORIES_OPEN, pref + ent, MEMORIES_CLOSE, remaining);
      text := Section(MEMORIES_OPEN, pref + ent, MEMORIES_CLOSE);
    }
  }

  lemma ListingsFit(pref: seq<string>, used: nat, ent: seq<string>, cost: nat, budget: nat)
    requires pref + ent != []
    requires if pref == [] then used == 0 else 0 < Weight(Join(pref)) <= 4 * used <= 4 * (budget / 2)
    requires ent != [] ==> 0 < Weight(Join(ent)) <= 4 * cost <= 4 * Max(0, budget - used - if pref != [] then 1 else 0)
    ensures 0 < Weight(Join(pref + ent)) <= 4 * budget
  {
    hide Weight, Join;
    if pref == [] {
      assert pref + ent == ent;
    } else if ent == [] {
      assert pref + ent == pref;
    } else {
      WeightJoin(pref, ent);
    }
  }

  /** Appends a part on a line of its own, if there is one. */
  function Append(text: string, part: string): string {
    if part == "" then text else if text == "" then part else text + "\n" + part
  }

  lemma AppendCosts(text: string, part: string)
    ensures Weight(Append(text, part)) <= Weight(text) + (if text != "" && part != "" then 1 else 0) + Weight(part)
  {
    WeightConcat(text, "\n");
    WeightConcat(text + "\n", part);
    assert Weight("\n") == 1;
  }

  /** For every profile, listing, skill and budget: the text stays within `profile_max_tokens`. It is the
      profile, the memories and the skills, each on lines of its own. */
  method BuildProfile(f: Fetched, budget: nat, withProfile: bool, withCatalog: bool, hint: string)
    returns (text: string, profile: string, memories: string, skills: string)
    ensures EstimateTokens(text) <= budget
    ensures text == Append(Append(profile, memories), skills)
    ensures EstimateTokens(skills) <= budget / 4
    ensures EstimateTokens(profile) <= (budget - Charge(skills)) / 2
    ensures budget == 0 || !(withProfile || withCatalog) ==> text == ""
    ensures (!withCatalog ==> skills == "" && memories == "") && (!withProfile ==> profile == "")
    ensures withCatalog && budget >= 4 && Count(f.skills, |f.skills|) > 0
            && CostFrom(f.skills, 0) + |f.skills| <= ListingBudget(budget / 4, Frame(SKILLS_OPEN, SKILLS_CLOSE)) + 1 ==>
              skills == Section(SKILLS_OPEN, AllLines(f.skills, |f.skills|), SKILLS_CLOSE)
    ensures budget > 0 && withProfile && f.profile != ""
            && EstimateTokens(f.profile) + EstimateTokens(Frame([f.opening], PROFILE_CLOSE)) <= (budget - Charge(skills)) / 2 ==>
              profile == Section([f.opening], [f.profile], PROFILE_CLOSE)
    ensures budget > 0 && withCatalog ==>
              exists pref, ent ::
                && TwoListings(pref, ent, f, hint, ListingBudget(budget - Charge(skills) - Charge(profile), Frame(MEMORIES_OPEN, MEMORIES_CLOSE)))
                && memories == if pref + ent == [] then "" else Section(MEMORIES_OPEN, pref + ent, MEMORIES_CLOSE)
  {
    hide Weight, Join, TwoListings, Section, Frame, CostFrom, AllLines, EstimateTokens, ListingBudget, Count, Append;
    EmptyCosts();
    assert Append(Append("", ""), "") == "" by { NothingAppended(); }
    profile, memories, skills := "", "", "";
    if budget == 0 || !(withProfile || withCatalog) {
      return "", "", "", "";
    }
    if withCatalog && budget >= 4 {
      skills := FormatSkillCatalog(f.skills, budget / 4);
    }
    var remaining := budget - Charge(skills);
    profile := ProfilePart(f.opening, if withProfile then f.profile else "", remaining);
    NotEmptyCosts(profile);
    remaining := remaining - Charge(profile);
    var pref, ent;
    memories, pref, ent := MemoriesPart(if withCatalog then f else f.(preferences := [], entities := []), hint, remaining);
    if !withCatalog {
      NothingListed(pref, ent, f, hint, ListingBudget(remaining, Frame(MEMORIES_OPEN, MEMORIES_CLOSE)));
    }
    text := Append(Append(profile, memories), skills);
    PartsFit(profile, memories, skills, budget);
  }

  lemma NothingAppended()
    ensures Append(Append("", ""), "") == ""
  {
  }

  /** Parts that fit what the parts charged before them leave make a text that fits. */
  lemma PartsFit(profile: string, memories: string, skills: string, budget: nat)
    requires EstimateTokens(memories) <= budget - Charge(skills) - Charge(profile)
    ensures EstimateTokens(Append(Append(profile, memories), skills)) <= budget
  {
    hide Weight, Join;
    AppendCosts(profile, memories);
    AppendCosts(Append(profile, memories), skills);
  }

  lemma NothingListed(pref: seq<string>, ent: seq<string>, f: Fetched, hint: string, room: nat)
    requires TwoListings(pref, ent, f.(preferences := [], entities := []), hint, room)
    ensures pref + ent == []
  {
    hide EstimateTokens, Join;
  }

  lemma NotEmptyCosts(text: string)
    ensures text != "" ==> EstimateTokens(text) > 0
  {
    WeightCounts(text);
  }
}
