/**
 Histories and the anchors that name their prefixes (`prefix_chain` in protocols.py).

 A model message stands for the canonical form of a client message, so two client messages
 that canonicalise alike are one model message. The SHA-256 link is the free constructor
 `Link`: what is proved here is what the gateway relies on when no two links collide.
 */
module Anchors {
  import opened Basics

  datatype Role = User | Assistant | Tool | NoRole
  datatype Skipped = SystemRole | DeveloperRole | AdditionalTools | EmptyReply
  datatype Call = Call(id: string, name: string, input: string)
  datatype Answer = Answer(id: string, output: string)

  /** `Aside`: a message that gets no anchor, and that capture never keeps.
      `Said`: `isCall` marks call items, `text` is the cleaned text capture would store, and
      `answers` are the tool results the message carries. */
  datatype Message =
    | Aside(why: Skipped, content: string)
    | Said(role: Role, isCall: bool, text: string, calls: seq<Call>, answers: seq<Answer>)

  datatype Anchor = Seed | Link(prev: Anchor, message: Message)

  predicate Anchored(m: Message) {
    m.Said?
  }

  /** The messages capture looks at. */
  predicate Eligible(m: Message) {
    m.Said? && (m.role == User || m.role == Assistant || m.isCall)
  }

  /** `is_user`: text the user wrote, not a tool result. */
  predicate IsUser(m: Message) {
    m.Said? && m.role == User && m.text != "" && m.answers == []
  }

  /** The anchored messages of a history, in order. */
  function Spoken(ms: seq<Message>): seq<Message> {
    if ms == [] then []
    else (if Anchored(ms[0]) then [ms[0]] else []) + Spoken(ms[1..])
  }

  /** The running anchor after `ms`, starting from `prev`. */
  function Tip(prev: Anchor, ms: seq<Message>): Anchor
    decreases |ms|
  {
    if ms == [] then prev
    else Tip(if Anchored(ms[0]) then Link(prev, ms[0]) else prev, ms[1..])
  }

  /** The anchors of `ms`; `None` is the empty string the code puts at unanchored messages. */
  function Chain(prev: Anchor, ms: seq<Message>): (r: seq<Option<Anchor>>)
    ensures |r| == |ms|
    decreases |ms|
  {
    if ms == [] then []
    else if !Anchored(ms[0]) then [None] + Chain(prev, ms[1..])
    else [Some(Link(prev, ms[0]))] + Chain(Link(prev, ms[0]), ms[1..])
  }

  function LastAnchor(chain: seq<Option<Anchor>>): Anchor {
    if chain == [] then Seed
    else if Last(chain).Some? then Last(chain).value
    else LastAnchor(chain[..|chain| - 1])
  }

  /** The loop of `prefix_chain`. */
  method PrefixChain(messages: seq<Message>, after: seq<Option<Anchor>>)
    returns (result: seq<Option<Anchor>>)
    ensures result == Chain(LastAnchor(after), messages)
  {
    var previous := Seed;
    var k := |after|;
    assert after[..k] == after;
    while k > 0
      invariant 0 <= k <= |after|
      invariant previous == Seed
      invariant LastAnchor(after) == LastAnchor(after[..k])
    {
      assert after[..k][..k - 1] == after[..k - 1];
      if after[k - 1].Some? {
        previous := after[k - 1].value;
        break;
      }
      k := k - 1;
    }
    assert previous == LastAnchor(after);
    result := [];
    for i := 0 to |messages|
      invariant previous == Tip(LastAnchor(after), messages[..i])
      invariant result == Chain(LastAnchor(after), messages[..i])
    {
      TipConcat(LastAnchor(after), messages[..i], [messages[i]]);
      ChainConcat(LastAnchor(after), messages[..i], [messages[i]]);
      assert messages[..i] + [messages[i]] == messages[..i + 1];
      if Anchored(messages[i]) {
        previous := Link(previous, messages[i]);
        result := result + [Some(previous)];
      } else {
        result := result + [None];
      }
    }
    assert messages[..|messages|] == messages;
  }

  lemma {:induction false} TipConcat(prev: Anchor, a: seq<Message>, b: seq<Message>)
    ensures Tip(prev, a + b) == Tip(Tip(prev, a), b)
    decreases |a|
  {
    if a == [] {
      assert a + b == b;
    } else {
      assert (a + b)[1..] == a[1..] + b;
      TipConcat(if Anchored(a[0]) then Link(prev, a[0]) else prev, a[1..], b);
    }
  }

  lemma {:induction false} ChainConcat(prev: Anchor, a: seq<Message>, b: seq<Message>)
    ensures Chain(prev, a + b) == Chain(prev, a) + Chain(Tip(prev, a), b)
    decreases |a|
  {
    if a == [] {
      assert a + b == b;
    } else {
      assert (a + b)[1..] == a[1..] + b;
      ChainConcat(if Anchored(a[0]) then Link(prev, a[0]) else prev, a[1..], b);
    }
  }

  /** The running digest can be read back from the chain, however many messages have no anchor. */
  lemma {:induction false} TipIsLastAnchor(after: seq<Option<Anchor>>, ms: seq<Message>)
    ensures LastAnchor(after + Chain(LastAnchor(after), ms)) == Tip(LastAnchor(after), ms)
    decreases |ms|
  {
    if ms == [] {
      assert after + Chain(LastAnchor(after), ms) == after;
    } else {
      var head, tail := ms[..|ms| - 1], ms[|ms| - 1];
      assert ms == head + [tail];
      TipIsLastAnchor(after, head);
      TipConcat(LastAnchor(after), head, [tail]);
      ChainConcat(LastAnchor(after), head, [tail]);
      var whole := after + Chain(LastAnchor(after), ms);
      assert whole[..|whole| - 1] == after + Chain(LastAnchor(after), head);
    }
  }

  /** A reply is hashed as a continuation of its history: the joint chain is the two joined. */
  lemma ChainContinues(after: seq<Option<Anchor>>, a: seq<Message>, b: seq<Message>)
    ensures var first := Chain(LastAnchor(after), a);
            Chain(LastAnchor(after), a + b) == first + Chain(LastAnchor(after + first), b)
  {
    ChainConcat(LastAnchor(after), a, b);
    TipIsLastAnchor(after, a);
  }

  function Depth(a: Anchor): nat {
    match a
    case Seed => 0
    case Link(prev, _) => 1 + Depth(prev)
  }

  lemma {:induction false} TipDepth(prev: Anchor, ms: seq<Message>)
    ensures Depth(Tip(prev, ms)) == Depth(prev) + |Spoken(ms)|
    decreases |ms|
  {
    if ms != [] {
      TipDepth(if Anchored(ms[0]) then Link(prev, ms[0]) else prev, ms[1..]);
    }
  }

  lemma {:induction false} SpokenConcat(a: seq<Message>, b: seq<Message>)
    ensures Spoken(a + b) == Spoken(a) + Spoken(b)
  {
    if a == [] {
      assert a + b == b;
    } else {
      hide Anchored;
      assert (a + b)[1..] == a[1..] + b && (a + b)[0] == a[0];
      SpokenConcat(a[1..], b);
      var first := if Anchored(a[0]) then [a[0]] else [];
      assert Spoken(a + b) == first + (Spoken(a[1..]) + Spoken(b));
      assert first + (Spoken(a[1..]) + Spoken(b)) == first + Spoken(a[1..]) + Spoken(b);
    }
  }

  /** With links that never collide, a tip names exactly the anchored messages behind it. */
  lemma {:induction false} TipInjective(prev: Anchor, a: seq<Message>, b: seq<Message>)
    ensures Tip(prev, a) == Tip(prev, b) <==> Spoken(a) == Spoken(b)
    decreases |a| + |b|
  {
    TipDepth(prev, a);
    TipDepth(prev, b);
    if a != [] && !Anchored(Last(a)) {
      TipDropLast(prev, a);
      TipInjective(prev, a[..|a| - 1], b);
    } else if b != [] && !Anchored(Last(b)) {
      TipDropLast(prev, b);
      TipInjective(prev, a, b[..|b| - 1]);
    } else if a == [] && b != [] {
      TipDropLast(prev, b);
    } else if b == [] && a != [] {
      TipDropLast(prev, a);
    } else if a != [] && b != [] {
      TipDropLast(prev, a);
      TipDropLast(prev, b);
      TipInjective(prev, a[..|a| - 1], b[..|b| - 1]);
      var sa, sb := Spoken(a[..|a| - 1]), Spoken(b[..|b| - 1]);
      assert Spoken(a)[..|sa|] == sa && Spoken(b)[..|sb|] == sb;
    }
  }

  lemma TipDropLast(prev: Anchor, ms: seq<Message>)
    requires ms != []
    ensures Tip(prev, ms) == (if Anchored(Last(ms)) then Link(Tip(prev, ms[..|ms| - 1]), Last(ms))
                              else Tip(prev, ms[..|ms| - 1]))
    ensures Spoken(ms) == Spoken(ms[..|ms| - 1]) + (if Anchored(Last(ms)) then [Last(ms)] else [])
  {
    assert ms == ms[..|ms| - 1] + [Last(ms)];
    TipConcat(prev, ms[..|ms| - 1], [Last(ms)]);
    SpokenConcat(ms[..|ms| - 1], [Last(ms)]);
  }

  /** Position `i` of a chain holds the tip of the messages up to and including `i`. */
  lemma ChainAt(prev: Anchor, ms: seq<Message>, i: nat)
    requires i < |ms|
    ensures Chain(prev, ms)[i] == if Anchored(ms[i]) then Some(Tip(prev, ms[..i + 1])) else None
  {
    assert ms == ms[..i + 1] + ms[i + 1..];
    assert ms[..i + 1] == ms[..i] + [ms[i]];
    ChainConcat(prev, ms[..i + 1], ms[i + 1..]);
    ChainConcat(prev, ms[..i], [ms[i]]);
    TipConcat(prev, ms[..i], [ms[i]]);
  }

  /** Two anchors from one seed are equal exactly when their anchored prefixes are. */
  lemma AnchorsNamePrefixes(prev: Anchor, a: seq<Message>, b: seq<Message>, i: nat, j: nat)
    requires i < |a| && Chain(prev, a)[i].Some?
    requires j < |b| && Chain(prev, b)[j].Some?
    ensures Chain(prev, a)[i] == Chain(prev, b)[j] <==> Spoken(a[..i + 1]) == Spoken(b[..j + 1])
  {
    ChainAt(prev, a, i);
    ChainAt(prev, b, j);
    TipInjective(prev, a[..i + 1], b[..j + 1]);
  }

  /** Later positions have deeper anchors, so an anchor occurs at most once in a chain. */
  lemma ChainDeepens(prev: Anchor, ms: seq<Message>, i: nat, j: nat)
    requires i < j < |ms|
    requires Chain(prev, ms)[i].Some? && Chain(prev, ms)[j].Some?
    ensures Depth(Chain(prev, ms)[i].value) < Depth(Chain(prev, ms)[j].value)
  {
    ChainAt(prev, ms, i);
    ChainAt(prev, ms, j);
    TipDepth(prev, ms[..i + 1]);
    TipDepth(prev, ms[..j + 1]);
    TipDropLast(prev, ms[..j + 1]);
    assert ms[..j + 1][..j] == ms[..j] == ms[..i + 1] + ms[i + 1..j];
    SpokenConcat(ms[..i + 1], ms[i + 1..j]);
  }
}
