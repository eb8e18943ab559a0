/**
 When capture leaves an OpenViking session, and what the next one receives (`advance` and `confirm` in
 capture.py).
 */
module CaptureRestarts {
  import opened Basics
  import opened Anchors
  import opened CaptureTurns
  import opened CaptureOrder
  import opened CaptureQueue
  import opened CaptureProtocol

  // ---------------------------------------------------------------- advance

  lemma PositionFinds(chain: seq<Option<Anchor>>, a: Anchor, from: nat)
    ensures Position(chain, a) >= 0 <==> Some(a) in chain
    ensures Position(chain, a) >= from <==> exists i :: from <= i < |chain| && chain[i] == Some(a)
  {
    if i :| 0 <= i < |chain| && chain[i] == Some(a) {
      FindHits(chain, |chain|, i);
    }
    if i :| from <= i < |chain| && chain[i] == Some(a) {
      FindHits(chain, |chain|, i);
    }
  }

  lemma {:induction false} ConfirmedKnown(chain: seq<Option<Anchor>>, turns: seq<Turn>)
    ensures Known(chain, Confirmed(turns)) <==> forall t :: t in turns && t.confirmed ==> Some(t.anchor) in chain
    decreases |turns|
  {
    hide Position;
    if turns != [] {
      ConfirmedKnown(chain, turns[1..]);
      PositionFinds(chain, turns[0].anchor, 0);
      assert turns == [turns[0]] + turns[1..];
      KnownConcat(chain, [turns[0]], Confirmed(turns[1..]));
      assert turns[0] in [turns[0]] && turns[0] in turns;
      assert Known(chain, [turns[0]]) <==> Position(chain, turns[0].anchor) >= 0;
    }
  }

  /** The history lost the delivered message or a confirmed segment, or the delivered tail went out while
      idle and the user's message is not after it. */
  predicate Departs(v: Capture, chain: seq<Option<Anchor>>, user: nat) {
    || (v.delivered.Some? && v.delivered !in chain)
    || (exists t :: t in v.pending && t.confirmed && Some(t.anchor) !in chain)
    || (v.delivered.Some? && v.idle && exists i :: user <= i < |chain| && chain[i] == v.delivered)
  }

  /** A blank document for session `uuid` that remembers where up to five earlier sessions' messages went:
      the one just left first if it received any, then those it remembered. */
  predicate Blank(w: Capture, v: Capture, uuid: nat) {
    var known := (if v.delivered.Some? then [v.session] else []) + v.previous;
    && w == Capture(uuid, None, w.pending, [], None, None, false, w.previous, w.request)
    && w.previous <= known && |w.previous| <= 5 && (|w.previous| == 5 || w.previous == known)
  }

  lemma NewIsBlank(v: Capture, uuid: nat)
    ensures Blank(NewCapture(uuid, Some(v)), v, uuid) && NewCapture(uuid, Some(v)).pending == []
  {
    assert Lineage(v) == (if v.delivered.Some? then [v.session] else []) + v.previous;
  }

  lemma RestartsDepart(v: Capture, chain: seq<Option<Anchor>>, user: nat)
    ensures Restarts(v, chain, user) <==> Departs(v, chain, user)
  {
    hide Position, Known, Confirmed;
    ConfirmedKnown(chain, v.pending);
    if v.delivered.Some? {
      PositionFinds(chain, v.delivered.value, user);
    }
  }

  /** `advance` leaves the session exactly when the history departs from it, and then starts a blank one;
      otherwise only the queue changes. */
  lemma AdvanceSession(v: Capture, ms: seq<Message>, chain: seq<Option<Anchor>>, user: nat, stop: nat,
                       confirmed: bool, ready: int, uuid: nat)
    requires Aligned(ms, chain) && stop <= |ms| && uuid != v.session
    ensures var w := Advance(v, ms, chain, user, stop, confirmed, ready, uuid).0;
            && (w.session != v.session <==> Departs(v, chain, user))
            && w.request == v.request
            && (w.session != v.session ==> Blank(w, v, uuid))
            && (w.session == v.session ==> w == v.(pending := w.pending))
  {
    hide Turns, Restarts, Departs, Reach, NewCapture;
    RestartsDepart(v, chain, user);
    NewIsBlank(v, uuid);
  }

  lemma BlankStays(v: Capture, chain: seq<Option<Anchor>>, user: nat)
    requires v.delivered.None? && v.pending == []
    ensures !Restarts(v, chain, user)
  {
  }

  /** `confirm` leaves the session for the same reasons, or when a segment that was due is missing from the
      history. It clears a revoked key's error and hands the document to this request. */
  lemma ConfirmSession(v: Capture, ms: seq<Message>, user: nat, at: int, uuid: nat)
    requires user < |ms| && IsUser(ms[user]) && Aligned(ms, Chain(Seed, ms)) && uuid != v.session
    ensures var w := ConfirmedBy(Some(v), ms, user, at, uuid);
            var chain := Chain(Seed, ms);
            && (w.session != v.session <==>
                  || (exists t :: t in v.pending && t.ready <= at && Some(t.anchor) !in chain)
                  || Departs(v, chain, user))
            && w.request == chain[user]
            && (w.session != v.session ==> Blank(w, v, uuid))
            && (w.session == v.session ==>
                  w == v.(pending := w.pending, request := w.request,
                          error := if v.error.Some? && v.error.value.keyRevoked then None else v.error))
  {
    hide Turns, Restarts, Departs, Reach, NewCapture, Position, Chain, Confirmed;
    var chain := Chain(Seed, ms);
    forall t: Turn ensures Position(chain, t.anchor) >= 0 <==> Some(t.anchor) in chain {
      PositionFinds(chain, t.anchor, 0);
    }
    RestartsDepart(v, chain, user);
    NewIsBlank(v, uuid);
    BlankStays(NewCapture(uuid, Some(v)), chain, user);
  }

  /** The calls of a message that have results, each once, in call order: a list of calls is captured piece by
      piece, and a call by itself exactly when it has a result. */
  lemma {:induction false} ToolsInOrder(a: seq<Call>, b: seq<Call>, c: Call, r: map<string, string>)
    ensures ToolsOf(a + b, r) == ToolsOf(a, r) + ToolsOf(b, r)
    ensures ToolsOf([c], r) == if c.id in r then [ToolPart(c.id, c.name, c.input, r[c.id])] else []
    decreases |b|
  {
    assert [c][..0] == [];
    if b == [] {
      assert a + b == a;
    } else {
      assert (a + b)[..|a + b| - 1] == a + b[..|b| - 1];
      ToolsInOrder(a, b[..|b| - 1], c, r);
    }
  }

  lemma {:induction false} CalledPart(calls: seq<Call>, r: map<string, string>, c: Call)
    requires c in calls && c.id in r
    ensures ToolPart(c.id, c.name, c.input, r[c.id]) in ToolsOf(calls, r)
    decreases |calls|
  {
    if c != Last(calls) {
      CalledPart(calls[..|calls| - 1], r, c);
    }
  }

  /** A queue carries a captured call: its message's anchor, and a part with its name, input and some output. */
  predicate Carries(queue: seq<Captured>, at: Option<Anchor>, c: Call) {
    exists e, t :: e in queue && t in e.tools && Some(e.source) == at && t.id == c.id && t.name == c.name && t.input == c.input
  }

  lemma {:induction false} RangeCarries(ms: seq<Message>, chain: seq<Option<Anchor>>, i: nat, j: nat, results: map<string, string>,
                                      k: nat, c: Call)
    requires Aligned(ms, chain) && i <= k < j <= |ms| && Eligible(ms[k]) && c in ms[k].calls && c.id in results
    ensures Carries(CaptureRange(ms, chain, i, j, results), chain[k], c)
    decreases j
  {
    hide ToolsOf;
    var all := CaptureRange(ms, chain, i, j, results);
    if k == j - 1 {
      CalledPart(ms[k].calls, results, c);
      var e := CaptureOne(ms[k], chain[k], results).value;
      assert e in all;
    } else {
      RangeCarries(ms, chain, i, j - 1, results, k, c);
      var before := CaptureRange(ms, chain, i, j - 1, results);
      var e, t :| e in before && t in e.tools && Some(e.source) == chain[k] && t.id == c.id && t.name == c.name && t.input == c.input;
      assert e in all;
    }
  }

  /** The message carries a result for this call. */
  predicate Answers(m: Message, c: Call) {
    exists a :: a in AnswersIn(m) && a.id == c.id
  }

  lemma {:induction false} ResultsHave(ms: seq<Message>, i: nat, j: nat, r: nat, c: Call)
    requires i <= r < j <= |ms| && Answers(ms[r], c)
    ensures c.id in Results(ms, i, j)
    decreases j
  {
    AnswersKeys(Results(ms, i, j - 1), AnswersIn(ms[j - 1]));
    if r < j - 1 {
      ResultsHave(ms, i, j - 1, r, c);
    }
  }

  /** No user's message stands between the two, so they are in one segment. */
  predicate Together(ms: seq<Message>, k: nat, r: nat)
    requires k < |ms| && r < |ms|
  {
    forall x :: Min(k, r) < x <= Max(k, r) ==> !IsUser(ms[x])
  }

  /** A message with tool results opens no segment, whoever sent it: a call that the next message answers is in
      one segment with its result. */
  lemma NextMessageAnswers(ms: seq<Message>, k: nat, c: Call)
    requires k + 1 < |ms| && Answers(ms[k + 1], c)
    ensures Together(ms, k, k + 1)
  {
    hide Answers;
    assert AnswersIn(ms[k + 1]) != [] by { AnswersHave(ms[k + 1], c); }
  }

  lemma AnswersHave(m: Message, c: Call)
    requires Answers(m, c)
    ensures AnswersIn(m) != []
  {
  }

  /** What a captured message is: a user's or assistant's message or a call item of that stretch, with text or
      with a call that has a result. Messages of any other role are not captured. */
  lemma {:induction false} CapturedIs(ms: seq<Message>, chain: seq<Option<Anchor>>, i: nat, j: nat, results: map<string, string>,
                                      e: Captured) returns (k: nat)
    requires Aligned(ms, chain) && j <= |ms| && e in CaptureRange(ms, chain, i, j, results)
    ensures i <= k < j && chain[k] == Some(e.source) && ms[k].Said?
    ensures ms[k].role == User || ms[k].role == Assistant || ms[k].isCall
    ensures e.text == ms[k].text && e.role == if ms[k].role == NoRole then Assistant else ms[k].role
    ensures e.text != "" || exists c :: c in ms[k].calls && c.id in results
    decreases j
  {
    hide ToolsOf;
    var one := CaptureOne(ms[j - 1], chain[j - 1], results);
    if one == Some(e) {
      k := j - 1;
      if e.text == "" {
        SomeCall(ms[k].calls, results);
      }
    } else {
      k := CapturedIs(ms, chain, i, j - 1, results, e);
    }
  }

  lemma {:induction false} SomeCall(calls: seq<Call>, r: map<string, string>)
    requires ToolsOf(calls, r) != []
    ensures exists c :: c in calls && c.id in r
    decreases |calls|
  {
    if Last(calls).id in r {
      assert Last(calls) in calls;
    } else {
      var init := calls[..|calls| - 1];
      assert ToolsOf(init, r) + [] == ToolsOf(init, r);
      SomeCall(init, r);
      var c :| c in init && c.id in r;
      assert c in calls;
    }
  }

  /** A call with a result in its own segment is captured. */
  lemma {:induction false} TurnsCarry(ms: seq<Message>, chain: seq<Option<Anchor>>, start: nat, stop: nat, confirmed: bool,
                                     ready: int, k: nat, r: nat, c: Call) returns (t: Turn)
    requires Aligned(ms, chain) && stop <= |ms| && start <= k < stop && start <= r < stop && Together(ms, k, r)
    requires Eligible(ms[k]) && c in ms[k].calls && Answers(ms[r], c)
    ensures t in Turns(ms, chain, start, stop, confirmed, ready) && Carries(t.messages, chain[k], c)
    decreases stop - start
  {
    hide Eligible, Answers, IsUser, Carries, CaptureRange, Results;
    var next := NextUser(ms, start + 1, stop);
    if k < next && r < next {
      ResultsHave(ms, start, next, r, c);
      RangeCarries(ms, chain, start, next, Results(ms, start, next), k, c);
      NotNothing(Segment(ms, chain, start, next), chain[k], c);
      t := Turns(ms, chain, start, stop, confirmed, ready)[0];
    } else {
      assert next <= k && next <= r;
      t := TurnsCarry(ms, chain, next, stop, confirmed, ready, k, r, c);
    }
  }

  lemma NotNothing(queue: seq<Captured>, at: Option<Anchor>, c: Call)
    requires Carries(queue, at, c)
    ensures queue != []
  {
  }

  /** Nothing from position `i` on was delivered or is confirmed in the queue. */
  predicate Unsent(v: Capture, chain: seq<Option<Anchor>>, i: nat) {
    forall x :: i <= x < |chain| && chain[x].Some? ==>
      && chain[x] != v.delivered
      && forall t :: t in v.pending && t.confirmed ==> chain[x] != Some(t.anchor)
  }

  lemma {:induction false} ReachBelow(chain: seq<Option<Anchor>>, turns: seq<Turn>, i: nat)
    requires forall x, t :: i <= x < |chain| && t in turns && t.confirmed ==> chain[x] != Some(t.anchor)
    ensures Reach(chain, Confirmed(turns)) < i
    decreases |turns|
  {
    if turns != [] {
      ReachBelow(chain, turns[1..], i);
      if turns[0].confirmed {
        PositionFinds(chain, turns[0].anchor, i);
        assert Confirmed(turns) == [turns[0]] + Confirmed(turns[1..]);
        assert Confirmed(turns)[1..] == Confirmed(turns[1..]);
      }
    }
  }

  lemma UnsentStarts(v: Capture, chain: seq<Option<Anchor>>, i: nat)
    requires Unsent(v, chain, i)
    ensures CaptureTurns.Start(v, chain) <= i
  {
    hide Position, Reach, Confirmed;
    ReachBelow(chain, v.pending, i);
    if v.delivered.Some? {
      PositionFinds(chain, v.delivered.value, i);
    }
  }

  /** After `advance`, a call with a result in its own segment is queued, unless something from there on was
      delivered or confirmed in a session that goes on. A new session receives all of them again. */
  lemma AdvanceCarries(v: Capture, ms: seq<Message>, chain: seq<Option<Anchor>>, user: nat, stop: nat, confirmed: bool,
                       ready: int, uuid: nat, k: nat, r: nat, c: Call) returns (t: Turn)
    requires Aligned(ms, chain) && stop <= |ms| && user < |ms| && IsUser(ms[user]) && uuid != v.session
    requires k < stop && r < stop && Together(ms, k, r) && Eligible(ms[k]) && c in ms[k].calls && Answers(ms[r], c)
    requires || Advance(v, ms, chain, user, stop, confirmed, ready, uuid).0.session != v.session
             || Unsent(v, chain, Min(k, r))
    ensures t in Advance(v, ms, chain, user, stop, confirmed, ready, uuid).0.pending && Carries(t.messages, chain[k], c)
  {
    hide Turns, Position, Known, Eligible, Answers, IsUser, Carries, Confirmed, CaptureTurns.Start;
    var base := Base(v, chain, user, uuid);
    assert Unsent(base, chain, Min(k, r));
    UnsentStarts(base, chain, Min(k, r));
    var start, split := CaptureTurns.Start(base, chain), Split(base, chain, user, stop);
    if k < split && r < split {
      t := TurnsCarry(ms, chain, start, split, true, 0, k, r, c);
    } else {
      assert split <= k && split <= r;
      t := TurnsCarry(ms, chain, split, stop, confirmed, ready, k, r, c);
    }
  }

  lemma {:induction false} TurnsWithin(ms: seq<Message>, chain: seq<Option<Anchor>>, start: nat, stop: nat,
                                       confirmed: bool, ready: int, t: Turn) returns (i: nat)
    requires Aligned(ms, chain) && stop <= |ms| && t in Turns(ms, chain, start, stop, confirmed, ready)
    ensures start <= i < stop && chain[i] == Some(t.anchor)
    decreases stop - start
  {
    hide CaptureRange, Results, Silent, IsUser;
    var next := NextUser(ms, start + 1, stop);
    var rest := Turns(ms, chain, next, stop, confirmed, ready);
    if t in rest {
      i := TurnsWithin(ms, chain, next, stop, confirmed, ready, t);
    } else {
      i := LastCaptured(ms, chain, start, next, Results(ms, start, next));
    }
  }

  lemma {:induction false} ConfirmedIn(turns: seq<Turn>, t: Turn)
    ensures t in Confirmed(turns) <==> t in turns && t.confirmed
    decreases |turns|
  {
    if turns != [] {
      ConfirmedIn(turns[1..], t);
      assert turns == [turns[0]] + turns[1..];
    }
  }

  /** What a segment in the advanced queue is: kept because it was confirmed; or new and before the user's
      message, confirmed and due at once; or new and from there on, with the flag and the time asked for. */
  lemma AdvanceFlags(v: Capture, ms: seq<Message>, chain: seq<Option<Anchor>>, user: nat, stop: nat,
                     confirmed: bool, ready: int, uuid: nat, t: Turn)
    requires Aligned(ms, chain) && stop <= |ms|
    requires t in Advance(v, ms, chain, user, stop, confirmed, ready, uuid).0.pending
    ensures || (t in v.pending && t.confirmed)
            || (t.confirmed && t.ready == 0 && exists i :: 0 <= i < user && i < stop && chain[i] == Some(t.anchor))
            || (&& t.confirmed == confirmed && t.ready == (if confirmed then 0 else ready)
                && exists i :: user <= i < stop && chain[i] == Some(t.anchor))
  {
    hide Turns, Position, Known, Confirmed, Restarts;
    var base := Base(v, chain, user, uuid);
    var start, split := CaptureTurns.Start(base, chain), Split(base, chain, user, stop);
    NothingConfirmed();
    ConfirmedIn(base.pending, t);
    if t in Turns(ms, chain, start, split, true, 0) {
      TurnsFlag(ms, chain, start, split, true, 0);
      var i := TurnsWithin(ms, chain, start, split, true, 0, t);
    } else if t in Turns(ms, chain, split, stop, confirmed, ready) {
      TurnsFlag(ms, chain, split, stop, confirmed, ready);
      var i := TurnsWithin(ms, chain, split, stop, confirmed, ready, t);
    }
  }

  lemma NothingConfirmed()
    ensures Confirmed([]) == []
  {
  }

  /** Every segment of an advanced queue ends at a message of that history. */
  lemma AdvancedIsKnown(v: Capture, ms: seq<Message>, chain: seq<Option<Anchor>>, user: nat, stop: nat,
                        confirmed: bool, ready: int, uuid: nat, t: Turn)
    requires Aligned(ms, chain) && stop <= |ms|
    requires t in Advance(v, ms, chain, user, stop, confirmed, ready, uuid).0.pending
    ensures Some(t.anchor) in chain
  {
    hide Turns, Position, Known, Confirmed, Restarts;
    var base := Base(v, chain, user, uuid);
    var start, split := CaptureTurns.Start(base, chain), Split(base, chain, user, stop);
    BaseStays(v, chain, user, uuid);
    RestartsDepart(base, chain, user);
    ConfirmedIn(base.pending, t);
    if t in Turns(ms, chain, start, split, true, 0) {
      var i := TurnsWithin(ms, chain, start, split, true, 0, t);
    } else if t in Turns(ms, chain, split, stop, confirmed, ready) {
      var i := TurnsWithin(ms, chain, split, stop, confirmed, ready, t);
    }
  }

  /** `advance` reads nothing of the error or the request, and keeps both in a session that goes on. */
  lemma AdvanceIgnores(v: Capture, w: Capture, ms: seq<Message>, chain: seq<Option<Anchor>>, user: nat, stop: nat, uuid: nat)
    requires Aligned(ms, chain) && stop <= |ms| && w == v.(error := w.error, request := w.request)
    requires Advance(v, ms, chain, user, stop, true, 0, uuid).0 == v && !Restarts(v, chain, user)
    ensures Advance(w, ms, chain, user, stop, true, 0, uuid).0 == w
  {
    hide Turns, Position, Known, Reach, Confirmed;
    assert !Restarts(w, chain, user);
    assert CaptureTurns.Start(w, chain) == CaptureTurns.Start(v, chain);
  }

  lemma AdvancedStays(v: Capture, ms: seq<Message>, chain: seq<Option<Anchor>>, user: nat, stop: nat, uuid: nat)
    requires chain == Chain(Seed, ms) && Aligned(ms, chain) && stop <= |ms|
    ensures !Restarts(Advance(v, ms, chain, user, stop, true, 0, uuid).0, chain, user)
  {
    hide Turns, Position, Confirmed, Restarts;
    var w := Advance(v, ms, chain, user, stop, true, 0, uuid).0;
    BaseStays(v, chain, user, uuid);
    RestartsDepart(Base(v, chain, user, uuid), chain, user);
    RestartsDepart(w, chain, user);
    forall t | t in w.pending ensures Some(t.anchor) in chain {
      AdvancedIsKnown(v, ms, chain, user, stop, true, 0, uuid, t);
    }
  }

  /** Confirming a history again changes nothing. */
  lemma ConfirmTwice(was: Option<Capture>, ms: seq<Message>, user: nat, at: int, uuid: nat, later: int, other: nat)
    requires user < |ms| && IsUser(ms[user]) && Aligned(ms, Chain(Seed, ms))
    ensures var w := ConfirmedBy(was, ms, user, at, uuid); ConfirmedBy(Some(w), ms, user, later, other) == w
  {
    hide Advance, Restarts, Chain, Aligned, Position, IsUser;
    var chain := Chain(Seed, ms);
    var found := if was.Some? then was.value else NewCapture(uuid, None);
    var kept := if exists t :: t in found.pending && t.ready <= at && Position(chain, t.anchor) < 0
                then NewCapture(uuid, Some(found)) else found;
    var queued := Advance(kept, ms, chain, user, user, true, 0, uuid).0;
    var w := ConfirmedBy(was, ms, user, at, uuid);
    forall t | t in w.pending ensures Position(chain, t.anchor) >= 0 {
      AdvancedIsKnown(kept, ms, chain, user, user, true, 0, uuid, t);
      PositionFinds(chain, t.anchor, 0);
    }
    AdvancedStays(kept, ms, chain, user, user, uuid);
    AdvanceTwice(kept, ms, chain, user, user, true, 0, uuid, other);
    AdvanceIgnores(queued, w, ms, chain, user, user, other);
  }

  // ---------------------------------------------------------------- runs

  /** What a request stores came from the document it replaced. */
  lemma StoredBy(s: State, e: Event)
    requires Inv(s) && Enabled(s, e) && (e.Confirm? || e.ConfirmCut? || e.Stage?) && Step(s, e) != s
    ensures Aligned(e.ms, Chain(Seed, e.ms)) && Step(s, e).row.Some? && e.version == |s.stored|
    ensures var w := Step(s, e).row.value.value;
            && (e.Confirm? ==> w == ConfirmedBy(ValueAt(s, e.version), e.ms, e.user, e.at, e.uuid))
            && (!e.Confirm? ==>
                  && s.row.Some?
                  && w == Advance(s.row.value.value, e.ms, Chain(Seed, e.ms), e.user, StopOf(e), e.ConfirmCut?,
                                  if e.Stage? then e.due else 0, e.uuid).0)
  {
    hide ConfirmedBy, Advance, Store, Chain, Aligned, Fits, LineageOk, ReadyAt, SessionsOk, WorkersOk, LeasesOk;
    ChainAligned(Seed, e.ms);
    var value := if e.Confirm? then ConfirmedBy(ValueAt(s, e.version), e.ms, e.user, e.at, e.uuid)
                 else Advance(ValueAt(s, e.version).value, e.ms, Chain(Seed, e.ms), e.user, StopOf(e), e.ConfirmCut?,
                              if e.Stage? then e.due else 0, e.uuid).0;
    StoreShape(s, e.version, value);
  }

  lemma UuidIsNew(s: State, uuid: nat)
    requires Inv(s) && s.row.Some? && uuid !in s.log
    ensures uuid != s.row.value.value.session
  {
    hide Fits, LineageOk, ReadyAt, SessionsOk, WorkersOk, LeasesOk;
  }

  lemma RunsAreSound(events: seq<Event>, s: State)
    requires Runs(CaptureProtocol.Start, events) && s == Outcome(CaptureProtocol.Start, events)
    ensures Inv(s)
  {
    hide Inv, Step, Enabled;
    StartIsSound();
    RunsKeep(CaptureProtocol.Start, events);
  }

  /** In every run: a stored request moves the document to a new session exactly when its history departs from
      the current one (for a confirm, also when a due segment is missing from it). */
  lemma RequestsDepart(events: seq<Event>, s: State, e: Event)
    requires Runs(CaptureProtocol.Start, events) && s == Outcome(CaptureProtocol.Start, events) && Enabled(s, e)
    requires (e.Confirm? || e.ConfirmCut? || e.Stage?) && s.row.Some? && Step(s, e) != s
    ensures var t := Step(s, e);
            var v := s.row.value.value;
            var chain := Chain(Seed, e.ms);
            && t.row.Some?
            && var w := t.row.value.value;
               && (w.session != v.session <==>
                     || Departs(v, chain, e.user)
                     || (e.Confirm? && exists d :: d in v.pending && d.ready <= e.at && Some(d.anchor) !in chain))
               && (w.session != v.session ==> Blank(w, v, e.uuid))
               && (w.session == v.session ==>
                     && w == v.(pending := w.pending, request := w.request, error := w.error)
                     && (v.error.Some? && v.error.value.keyRevoked && e.Confirm? ==> w.error.None?)
                     && (w.error != v.error ==> v.error.Some? && v.error.value.keyRevoked))
               && w.request == chain[e.user]
  {
    hide Departs, Blank, Advance, ConfirmedBy, Chain, Aligned, Store, Inv, Step, Outcome, Runs;
    RunsAreSound(events, s);
    StoredBy(s, e);
    UuidIsNew(s, e.uuid);
    assert ValueAt(s, e.version) == Some(s.row.value.value) by { InvParts(s); }
    if e.Confirm? {
      ConfirmSession(s.row.value.value, e.ms, e.user, e.at, e.uuid);
    } else {
      AdvanceSession(s.row.value.value, e.ms, Chain(Seed, e.ms), e.user, StopOf(e), e.ConfirmCut?,
                     if e.Stage? then e.due else 0, e.uuid);
    }
  }

  /** In every run: once a cut or stage is stored, the queue holds every call of its history that has a result
      in its own segment, from where nothing is delivered or confirmed; and all of them if the history departs
      from the session, as when it goes on past a tail that was delivered idle. */
  lemma AnsweredCallsAreQueued(events: seq<Event>, s: State, e: Event, k: nat, r: nat, c: Call) returns (t: Turn)
    requires Runs(CaptureProtocol.Start, events) && s == Outcome(CaptureProtocol.Start, events) && Enabled(s, e)
    requires (e.ConfirmCut? || e.Stage?) && s.row.Some? && Step(s, e) != s
    requires k < StopOf(e) <= |e.ms| && r < StopOf(e) && Together(e.ms, k, r)
    requires e.ms[k].Said? && (e.ms[k].role == User || e.ms[k].role == Assistant || e.ms[k].isCall)
    requires c in e.ms[k].calls && Answers(e.ms[r], c)
    requires || Departs(s.row.value.value, Chain(Seed, e.ms), e.user)
             || Unsent(s.row.value.value, Chain(Seed, e.ms), Min(k, r))
    ensures var after := Step(s, e);
            after.row.Some? && t in after.row.value.value.pending && Carries(t.messages, Chain(Seed, e.ms)[k], c)
  {
    hide Departs, Unsent, Advance, Chain, Aligned, Inv, Step, Answers, Carries, Together, Outcome, Runs;
    RunsAreSound(events, s);
    StoredBy(s, e);
    UuidIsNew(s, e.uuid);
    AdvanceSession(s.row.value.value, e.ms, Chain(Seed, e.ms), e.user, StopOf(e), e.ConfirmCut?,
                   if e.Stage? then e.due else 0, e.uuid);
    t := AdvanceCarries(s.row.value.value, e.ms, Chain(Seed, e.ms), e.user, StopOf(e), e.ConfirmCut?,
                        if e.Stage? then e.due else 0, e.uuid, k, r, c);
  }

  lemma StaleStores(s: State, version: nat, value: Capture)
    requires DocumentOk(s) && version < |s.stored|
    ensures Store(s, version, value) == s
  {
    hide Store, DocumentOk;
    if Store(s, version, value) != s {
      StoreShape(s, version, value);
    }
  }

  /** In every run: a request whose document another request or a reset has taken over stores nothing, however
      late it comes. */
  lemma OnlyTheOwnerQueues(events: seq<Event>, s: State, e: Event)
    requires Runs(CaptureProtocol.Start, events) && s == Outcome(CaptureProtocol.Start, events) && Enabled(s, e)
    requires (e.ConfirmCut? || e.Stage?) && s.row.Some? && e.user < |e.ms|
    requires s.row.value.value.session != e.target || s.row.value.value.request != Chain(Seed, e.ms)[e.user]
    ensures Step(s, e) == s
  {
    hide Advance, Store, Chain, Aligned, Inv, Runs, Outcome, DocumentOk, IsUser;
    RunsAreSound(events, s);
    InvParts(s);
    ChainAligned(Seed, e.ms);
    var value := Advance(ValueAt(s, e.version).value, e.ms, Chain(Seed, e.ms), e.user, StopOf(e), e.ConfirmCut?,
                         if e.Stage? then e.due else 0, e.uuid).0;
    assert e.version < |s.stored| by { CurrentValue(s); }
    StaleStores(s, e.version, value);
  }

  lemma CurrentValue(s: State)
    requires DocumentOk(s)
    ensures s.row.Some? ==> s.stored != [] && ValueAt(s, |s.stored|) == Some(s.row.value.value)
  {
    hide Fits, LineageOk, ReadyAt;
  }

  /** In every run: a confirm or a cut repeated with the same history leaves the document alone. */
  lemma RepeatsRest(events: seq<Event>, s: State, e: Event, again: Event)
    requires Runs(CaptureProtocol.Start, events) && s == Outcome(CaptureProtocol.Start, events) && Enabled(s, e)
    requires Step(s, e) != s && Enabled(Step(s, e), again)
    requires || (e.Confirm? && again.Confirm?) || (e.ConfirmCut? && again.ConfirmCut? && again.stop == e.stop)
    requires again.ms == e.ms && again.user == e.user
    ensures Step(Step(s, e), again) == Step(s, e)
  {
    hide Advance, ConfirmedBy, Store, Chain, Aligned, Inv, Runs, Outcome, DocumentOk, IsUser;
    RunsAreSound(events, s);
    StepKeeps(s, e);
    StoredBy(s, e);
    var t := Step(s, e);
    InvParts(s);
    InvParts(t);
    CurrentValue(s);
    CurrentValue(t);
    var w := t.row.value.value;
    var chain := Chain(Seed, e.ms);
    if e.Confirm? {
      ConfirmTwice(ValueAt(s, e.version), e.ms, e.user, e.at, e.uuid, again.at, again.uuid);
      if again.version < |t.stored| {
        StaleStores(t, again.version, ConfirmedBy(ValueAt(t, again.version), e.ms, e.user, again.at, again.uuid));
      }
    } else {
      AdvanceTwice(s.row.value.value, e.ms, chain, e.user, e.stop, true, 0, e.uuid, again.uuid);
      if again.version < |t.stored| {
        StaleStores(t, again.version, Advance(ValueAt(t, again.version).value, e.ms, chain, e.user, e.stop, true, 0, again.uuid).0);
      }
    }
  }
}
