/**
 What a reader of the profile text sees (profile.py): the counts in its notes, the shape of an entry's line, and
 the lines an elided profile keeps.
 */
module ProfileReads {
  import opened Basics
  import opened Profile

  // ---------------------------------------------------------------- estimates

  ghost function Wide(text: string): set<nat> {
    set i: nat | i < |text| && text[i] as int >= 0x3000
  }

  /** The estimate: a quarter of a token for every character, five quarters more for a wide one, rounded up. */
  lemma {:induction false} EstimateReads(text: string)
    ensures Weight(text) == |text| + 5 * |Wide(text)|
    ensures |text| + 5 * |Wide(text)| <= 4 * EstimateTokens(text) < |text| + 5 * |Wide(text)| + 4
    decreases |text|
  {
    if text == "" {
      assert Wide(text) == {};
    } else {
      var n := |text| - 1;
      var init := text[..n];
      EstimateReads(init);
      assert Wide(text) == Wide(init) + if text[n] as int >= 0x3000 then {n} else {};
      assert n !in Wide(init);
    }
  }

  // ---------------------------------------------------------------- numbers

  predicate IsDigit(c: char) {
    '0' <= c <= '9'
  }

  predicate IsNumeral(text: string) {
    text != "" && (forall i :: 0 <= i < |text| ==> IsDigit(text[i])) && (|text| > 1 ==> text[0] != '0')
  }

  /** The number a numeral stands for. */
  function ValueOf(text: string): nat
    requires forall i :: 0 <= i < |text| ==> IsDigit(text[i])
  {
    if text == "" then 0
    else
      assert IsDigit(text[|text| - 1]);
      10 * ValueOf(text[..|text| - 1]) + (Last(text) as int - '0' as int)
  }

  lemma DigitReads(d: nat)
    requires d < 10
    ensures IsDigit("0123456789"[d]) && "0123456789"[d] as int - '0' as int == d
  {
  }

  /** A number printed is a numeral without leading zeros that reads back as that number. */
  lemma {:induction false} DecimalReads(n: nat)
    ensures IsNumeral(Decimal(n)) && ValueOf(Decimal(n)) == n
    ensures n > 0 ==> Decimal(n)[0] != '0'
    decreases n
  {
    DigitReads(n % 10);
    var digit := "0123456789"[n % 10];
    if n < 10 {
      assert Decimal(n) == [digit] && [digit][..0] == "";
    } else {
      DecimalReads(n / 10);
      assert Decimal(n) == Decimal(n / 10) + [digit];
      assert Decimal(n)[..|Decimal(n)| - 1] == Decimal(n / 10);
    }
  }

  // ---------------------------------------------------------------- listings

  lemma {:induction false} EntryLinesAre(entries: seq<Entry>, n: nat, i: nat)
    requires i < n <= |entries|
    ensures EntryLines(entries, n)[i] == EntryLine(entries[i])
    decreases n
  {
    hide EntryLine;
    if i < n - 1 {
      EntryLinesAre(entries, n - 1, i);
    }
  }

  /** A listing that is not empty heads its entries' lines in order; when it leaves some out, its last line says
      how many, and when it shows none, its one line says how many there are. */
  lemma ListingReads(lines: seq<string>, used: nat, dropped: nat, uri: string, entries: seq<Entry>, budget: Option<int>, hint: string)
    returns (number: string)
    requires BestListing(lines, used, dropped, uri, entries, budget, hint) && lines != []
    ensures dropped <= |entries|
    ensures dropped == |entries| ==>
              && IsNumeral(number) && ValueOf(number) == |entries|
              && lines == ["  " + uri + "/  (" + number + " entries, budget too tight; " + hint + ")"]
    ensures dropped < |entries| ==>
              && |lines| == (if dropped == 0 then 1 else 2) + |entries| - dropped
              && lines[0] == "  " + uri + "/"
              && (forall i :: 0 <= i < |entries| - dropped ==> lines[1 + i] == EntryLine(entries[i]))
    ensures 0 < dropped < |entries| ==>
              && IsNumeral(number) && ValueOf(number) == dropped
              && Last(lines) == "    ... +" + number + " more, " + hint
  {
    hide EntryLine, Within, EstimateTokens, Join, Decimal, EntryLines;
    DecimalReads(dropped);
    number := Decimal(dropped);
    var n := |entries| - dropped;
    if n > 0 {
      forall i | 0 <= i < n ensures lines[1 + i] == EntryLine(entries[i]) {
        EntryLinesAre(entries, n, i);
      }
    }
  }

  /** Blanks collapse: cutting the text anywhere cuts what becomes of it; a run of blanks ends in one space, and
      everything else is kept. */
  lemma {:induction false} CollapseReads(text: string, n: nat)
    requires n <= |text|
    ensures Collapse(text[..n]) <= Collapse(text)
    ensures (text == "" <==> Collapse(text) == "")
    ensures text != "" ==> Last(Collapse(text)) == if IsSpace(Last(text)) then ' ' else Last(text)
    ensures forall i :: 0 < i < |Collapse(text)| ==> !(IsSpace(Collapse(text)[i - 1]) && IsSpace(Collapse(text)[i]))
    ensures text != "" && !IsSpace(Last(text)) ==> Collapse(text)[..|Collapse(text)| - 1] == Collapse(text[..|text| - 1])
    decreases |text|
  {
    hide IsSpace;
    assert IsSpace(' ') by { SpaceIsSpace(); }
    if text != "" {
      var init := text[..|text| - 1];
      CollapseReads(init, if n < |text| then n else |init|);
      if n < |text| {
        assert init[..n] == text[..n];
      } else {
        assert text[..n] == text;
      }
      if init != "" {
        assert Last(init) == text[|text| - 2];
      }
    }
  }

  lemma SpaceIsSpace()
    ensures IsSpace(' ')
  {
  }

  /** An entry's line: its name, and up to 200 characters of its summary with blanks collapsed. */
  lemma EntryReads(e: Entry)
    ensures e.summary == "" ==> EntryLine(e) == "    - " + e.name
    ensures e.summary != "" ==>
              exists shown :: shown <= Collapse(e.summary) && (|shown| == 200 || shown == Collapse(e.summary)) && |shown| <= 200
                              && EntryLine(e) == "    - " + e.name + " — " + shown
  {
    hide Collapse;
    CollapseReads(e.summary, 0);
    var text := Collapse(e.summary);
    var shown := text[..Min(200, |text|)];
    assert shown <= text;
    assert "    - " + e.name + "" == "    - " + e.name;
    assert "    - " + e.name + (" — " + shown) == "    - " + e.name + " — " + shown;
  }

  // ---------------------------------------------------------------- the elided profile

  predicate OneLine(line: string) {
    forall i :: 0 <= i < |line| ==> line[i] != '\n'
  }

  predicate OneLines(lines: seq<string>) {
    forall i :: 0 <= i < |lines| ==> OneLine(lines[i])
  }

  lemma {:induction false} SplitIsLines(text: string)
    ensures OneLines(SplitLines(text))
    decreases |text|
  {
    if text != "" {
      SplitIsLines(text[..|text| - 1]);
    }
  }

  /** Splitting a text extended by characters of one line extends its last line. */
  lemma {:induction false} SplitExtends(text: string, line: string)
    requires OneLine(line)
    ensures var lines := SplitLines(text);
            SplitLines(text + line) == lines[..|lines| - 1] + [Last(lines) + line]
    decreases |line|
  {
    hide SplitLines;
    var lines := SplitLines(text);
    if line == "" {
      assert text + line == text;
      assert Last(lines) + line == Last(lines);
    } else {
      var init := line[..|line| - 1];
      SplitExtends(text, init);
      SplitOne(text + init, Last(line));
      assert (text + init) + [Last(line)] == text + line;
      var front, last := lines[..|lines| - 1], Last(lines);
      assert (front + [last + init])[..|front|] == front;
      assert (last + init) + [Last(line)] == last + line;
    }
  }

  lemma SplitOne(text: string, c: char)
    requires c != '\n'
    ensures var lines := SplitLines(text); SplitLines(text + [c]) == lines[..|lines| - 1] + [Last(lines) + [c]]
  {
    assert (text + [c])[..|text|] == text;
  }

  lemma SplitNewline(text: string)
    ensures SplitLines(text + "\n") == SplitLines(text) + [""]
  {
    assert (text + "\n")[..|text|] == text;
  }

  /** Joined lines split back into themselves. */
  lemma {:induction false} JoinThenSplit(lines: seq<string>)
    requires lines != [] && OneLines(lines)
    ensures SplitLines(Join(lines)) == lines
    decreases |lines|
  {
    hide SplitLines;
    var last := Last(lines);
    if |lines| == 1 {
      SplitExtends("", last);
      assert SplitLines("") == [""] by { NothingSplits(); }
      assert "" + last == last;
    } else {
      var init := lines[..|lines| - 1];
      JoinThenSplit(init);
      SplitNewline(Join(init));
      SplitExtends(Join(init) + "\n", last);
      assert (init + [""])[..|init|] == init && "" + last == last;
      assert lines == init + [last];
    }
  }

  lemma NothingSplits()
    ensures SplitLines("") == [""]
  {
  }

  lemma {:induction false} JoinConcat(a: seq<string>, b: seq<string>)
    requires a != [] && b != []
    ensures Join(a + b) == Join(a) + "\n" + Join(b)
    decreases |b|
  {
    var init := b[..|b| - 1];
    assert (a + b)[..|a + b| - 1] == a + init;
    if init == [] {
      assert a + init == a;
    } else {
      JoinConcat(a, init);
    }
  }

  const ELIDED_LINE := "... [profile middle elided] ..."

  lemma JoinAround(head: seq<string>, note: string, tail: seq<string>)
    requires head != [] && tail != []
    ensures Join(head + [note] + tail) == Join(head) + ("\n" + note + "\n") + Join(tail)
  {
    hide Join;
    JoinConcat(head + [note], tail);
    JoinConcat(head, [note]);
    JoinOne(note);
    assert Join(head) + "\n" + note + "\n" + Join(tail) == Join(head) + ("\n" + note + "\n") + Join(tail);
  }

  lemma LinesAround(head: seq<string>, note: string, tail: seq<string>)
    requires head != [] && tail != [] && OneLines(head) && OneLine(note) && OneLines(tail)
    ensures SplitLines(Join(head) + ("\n" + note + "\n") + Join(tail)) == head + [note] + tail
  {
    hide SplitLines, Join, OneLine;
    JoinAround(head, note, tail);
    JoinThenSplit(head + [note] + tail);
  }

  lemma NoteBetween()
    ensures MIDDLE == "\n" + ELIDED_LINE + "\n"
  {
  }

  /** An elided profile reads: the first eight lines, the note, and the last lines. */
  lemma ElidedReads(lines: seq<string>, from: nat)
    requires 8 <= from < |lines| && OneLines(lines)
    ensures SplitLines(Elided(lines, from)) == lines[..8] + [ELIDED_LINE] + lines[from..]
  {
    hide SplitLines, Join, OneLine;
    NoteIsLine();
    NoteBetween();
    LinesAround(lines[..8], ELIDED_LINE, lines[from..]);
  }

  lemma NoteIsLine()
    ensures OneLine(ELIDED_LINE)
  {
  }

  /** So what `elide_profile` returns when it elides shows the profile's own first eight and last lines, at least
      two of them. */
  lemma ElisionReads(r: string, text: string, budget: nat, from: nat)
    requires ElidesTo(r, SplitLines(text), budget, from)
    ensures var lines := SplitLines(text); SplitLines(r) == lines[..8] + [ELIDED_LINE] + lines[from..]
  {
    SplitIsLines(text);
    ElidedReads(SplitLines(text), from);
  }
}
