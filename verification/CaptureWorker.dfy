/**
 The delivering side of capture (`CaptureWorker` in capture.py): what one delivered segment does to
 the document, how `save` merges it into a concurrently changed queue, and what a commit keeps.
 */
module CaptureWorker {
  import opened Basics
  import opened Anchors
  import opened CaptureTurns
  import opened CaptureOrder

  /** A versioned document as a reader holds it; version 0 means it did not exist. */
  datatype Document<+V> = Document(value: Option<V>, version: nat)

  // ---------------------------------------------------------------- one delivered segment

  /** A continuation joins the turn before it, so that commits keep whole turns. */
  function Push(retained: seq<Retained>, turn: Turn): seq<Retained> {
    if turn.continued && retained != []
    then retained[..|retained| - 1] + [Retained(turn.anchor, |turn.messages| + Last(retained).count)]
    else retained + [Retained(turn.anchor, |turn.messages|)]
  }

  /** The state `deliver` saves after the queue's first segment was written. */
  function Delivered(v: Capture): Capture
    requires v.pending != []
  {
    var turn := v.pending[0];
    v.(retained := Push(v.retained, turn), delivered := Some(turn.anchor),
       pending := v.pending[1..], idle := !turn.confirmed)
  }

  /** Delivering moves the first segment from the queue to the delivered messages. */
  lemma DeliveredWalks(v: Capture)
    requires Sound(v) && v.pending != []
    ensures Sound(Delivered(v))
    ensures v.pending[0].messages != [] && Walk(From(v), v.pending[0].messages)
    ensures End(From(v), v.pending[0].messages) == From(Delivered(v)) == Last(v.pending[0].messages).source
    ensures Flatten(v.pending) == v.pending[0].messages + Flatten(Delivered(v).pending)
  {
    hide Walk;
    var turn := v.pending[0];
    assert TurnOk(turn);
    WalkConcat(From(v), turn.messages, Flatten(v.pending[1..]));
    WalkLinks(From(v), turn.messages);
  }

  // ---------------------------------------------------------------- commit accounting

  function SumCounts(retained: seq<Retained>): nat {
    if retained == [] then 0 else retained[0].count + SumCounts(retained[1..])
  }

  lemma {:induction false} SumCountsConcat(a: seq<Retained>, b: seq<Retained>)
    ensures SumCounts(a + b) == SumCounts(a) + SumCounts(b)
  {
    if a == [] {
      assert a + b == b;
    } else {
      assert (a + b)[1..] == a[1..] + b;
      SumCountsConcat(a[1..], b);
    }
  }

  /** The last entry of the uncommitted messages `log` is a whole turn, or the end of one: it holds no user's
      message but its first, and begins with one if there are entries before it. */
  ghost predicate Closes(last: Retained, log: seq<Captured>, more: bool) {
    && 0 < last.count <= |log|
    && last.anchor == Last(log).source
    && (forall i :: |log| - last.count < i < |log| ==> !FromUser(log[i]))
    && (more ==> FromUser(log[|log| - last.count]))
  }

  /** The retained entries cut the uncommitted messages exactly at users' messages: every entry after the first
      opens with one, and no entry holds another. */
  ghost predicate WholeTurns(retained: seq<Retained>, log: seq<Captured>)
    decreases |retained|
  {
    if retained == [] then log == []
    else
      && Closes(Last(retained), log, |retained| > 1)
      && WholeTurns(retained[..|retained| - 1], log[..|log| - Last(retained).count])
  }

  /** A continuation lengthens the last entry. */
  lemma ClosesOn(last: Retained, log: seq<Captured>, turn: Turn, more: bool)
    requires Closes(last, log, more) && TurnOk(turn) && turn.continued
    ensures Closes(Retained(turn.anchor, |turn.messages| + last.count), log + turn.messages, more)
  {
    hide FromUser;
    var all := log + turn.messages;
    assert forall i :: |log| <= i < |all| ==> all[i] == turn.messages[i - |log|];
  }

  /** A new turn is an entry of its own. */
  lemma ClosesAnew(log: seq<Captured>, turn: Turn, more: bool)
    requires TurnOk(turn) && (turn.continued ==> !more)
    ensures Closes(Retained(turn.anchor, |turn.messages|), log + turn.messages, more)
  {
    hide FromUser;
    var all := log + turn.messages;
    assert forall i :: |log| <= i < |all| ==> all[i] == turn.messages[i - |log|];
  }

  lemma PushWhole(retained: seq<Retained>, log: seq<Captured>, turn: Turn)
    requires WholeTurns(retained, log) && TurnOk(turn)
    ensures WholeTurns(Push(retained, turn), log + turn.messages)
  {
    hide Closes, TurnOk;
    var all, pushed := log + turn.messages, Push(retained, turn);
    if turn.continued && retained != [] {
      var last := Last(retained);
      ClosesOn(last, log, turn, |retained| > 1);
      ClosesWithin(last, log, |retained| > 1);
      assert pushed[..|pushed| - 1] == retained[..|retained| - 1];
      assert all[..|all| - Last(pushed).count] == log[..|log| - last.count];
    } else {
      ClosesAnew(log, turn, retained != []);
      assert pushed[..|pushed| - 1] == retained;
      assert all[..|all| - Last(pushed).count] == log;
    }
  }

  lemma ClosesWithin(last: Retained, log: seq<Captured>, more: bool)
    requires Closes(last, log, more)
    ensures 0 < last.count <= |log|
  {
  }

  /** The counts add up to the uncommitted messages. */
  lemma {:induction false} WholeCounts(retained: seq<Retained>, log: seq<Captured>)
    requires WholeTurns(retained, log)
    ensures SumCounts(retained) == |log|
    decreases |retained|
  {
    if retained != [] {
      var init := retained[..|retained| - 1];
      WholeCounts(init, log[..|log| - Last(retained).count]);
      assert retained == init + [Last(retained)];
      SumCountsConcat(init, [Last(retained)]);
    }
  }

  /** Dropping whole entries from the front leaves the last one as it is. */
  lemma ClosesAfter(last: Retained, log: seq<Captured>, n: nat, more: bool, still: bool)
    requires Closes(last, log, more) && n <= |log| - last.count && (still ==> more)
    ensures Closes(last, log[n..], still)
  {
    hide FromUser;
  }

  lemma NothingRetained()
    ensures WholeTurns([], [])
  {
  }

  lemma WholeLast(retained: seq<Retained>, log: seq<Captured>)
    requires WholeTurns(retained, log) && retained != []
    ensures Closes(Last(retained), log, |retained| > 1)
    ensures WholeTurns(retained[..|retained| - 1], log[..|log| - Last(retained).count])
  {
  }

  lemma WholeOneMore(retained: seq<Retained>, last: Retained, log: seq<Captured>)
    requires Closes(last, log, retained != []) && WholeTurns(retained, log[..|log| - last.count])
    ensures WholeTurns(retained + [last], log)
  {
    hide Closes;
    assert (retained + [last])[..|retained|] == retained;
    ClosesWithin(last, log, retained != []);
  }

  /** Committing the first `k` turns leaves whole turns. */
  lemma {:induction false} CommitWhole(retained: seq<Retained>, log: seq<Captured>, k: nat)
    requires WholeTurns(retained, log) && k <= |retained|
    ensures SumCounts(retained[..k]) <= |log|
    ensures WholeTurns(retained[k..], log[SumCounts(retained[..k])..])
    decreases |retained|
  {
    hide Closes, SumCounts, WholeTurns;
    if k == |retained| {
      assert retained[..k] == retained;
      WholeCounts(retained, log);
      assert retained[k..] == [] && log[|log|..] == [];
      assert WholeTurns([], []) by { NothingRetained(); }
    } else {
      var init, last := retained[..|retained| - 1], Last(retained);
      WholeLast(retained, log);
      ClosesWithin(last, log, |retained| > 1);
      var shorter := log[..|log| - last.count];
      CommitWhole(init, shorter, k);
      assert init[..k] == retained[..k];
      var n := SumCounts(retained[..k]);
      ClosesAfter(last, log, n, |retained| > 1, init[k..] != []);
      assert log[n..][..|log[n..]| - last.count] == shorter[n..];
      assert retained[k..] == init[k..] + [last];
      WholeOneMore(init[k..], last, log[n..]);
    }
  }

  /** The loop that decides what a commit keeps: nothing when idle, else the shortest suffix of
      whole turns that reaches `limit` messages. */
  method KeepRecent(retained: seq<Retained>, limit: nat, idle: bool) returns (kept: nat, keep: nat)
    ensures kept <= |retained| && keep == SumCounts(retained[|retained| - kept..])
    ensures idle ==> kept == 0
    ensures !idle ==> keep >= limit || kept == |retained|
    ensures forall i :: |retained| - kept < i <= |retained| ==> SumCounts(retained[i..]) < limit
  {
    kept, keep := 0, 0;
    if !idle {
      for i := |retained| downto 0
        invariant kept == |retained| - i
        invariant keep == SumCounts(retained[i..])
        invariant forall k :: i < k <= |retained| ==> SumCounts(retained[k..]) < limit
      {
        if keep >= limit {
          return;
        }
        assert retained[i..][1..] == retained[i + 1..];
        kept := kept + 1;
        keep := keep + retained[i].count;
      }
    }
  }

  // ---------------------------------------------------------------- save

  /** One swap attempt: it wins, the lease is gone, or the document had changed to `now`. */
  datatype Attempt = Won | LeaseLost | Lost(now: Document<Capture>)
  datatype Saved = Stored(doc: Document<Capture>) | NewSession | Reset | NoLease | Interrupted

  /** The worker's fields over a request's document. */
  function Merge(now: Capture, mine: Capture, pending: seq<Turn>): Capture {
    now.(delivered := mine.delivered, retained := mine.retained, archive := mine.archive,
         error := mine.error, idle := mine.idle, pending := pending)
  }

  /** The document `save` swaps in next when it lost to another; there is none if `written` left the queue. */
  function Rebase(now: Capture, was: Capture, mine: Capture, written: Option<Captured>): Option<Capture>
  {
    if mine.delivered == was.delivered then Some(Merge(now, mine, now.pending))
    else if written.None? || Remaining(now.pending, written.value).None? then None
    else Some(Merge(now, mine, Remaining(now.pending, written.value).value))
  }

  /** While the worker holds the lease, nobody else moves `delivered` within the session. */
  predicate OnlyQueueMoves(attempts: seq<Attempt>, session: nat, delivered: Option<Anchor>) {
    forall a :: a in attempts && a.Lost? && a.now.value.Some? && a.now.value.value.session == session
      ==> a.now.value.value.delivered == delivered
  }

  /** The `save` loop against any sequence of conflicts: what it stores depends on the last document
      it met only, however many there were before. */
  method Save(previous: Document<Capture>, value: Capture, written: Option<Captured>, attempts: seq<Attempt>)
    returns (r: Saved, tries: nat)
    requires previous.value.Some?
    ensures tries <= |attempts|
    ensures r.Interrupted? <==> tries == |attempts|
    ensures r.NoLease? <==> tries < |attempts| && attempts[tries].LeaseLost?
    ensures r.Stored? ==>
              && attempts[tries].Won?
              && (tries == 0 ==> r.doc == Document(Some(value), previous.version + 1))
              && (tries > 0 ==>
                    && attempts[tries - 1].Lost? && attempts[tries - 1].now.value.Some?
                    && r.doc.version == attempts[tries - 1].now.version + 1)
    ensures r.Stored? && tries > 0 && OnlyQueueMoves(attempts, value.session, previous.value.value.delivered) ==>
              r.doc.value == Rebase(attempts[tries - 1].now.value.value, previous.value.value, value, written)
    ensures r.Stored? ==>
              && r.doc.value.Some?
              && var d := r.doc.value.value;
                 && d.delivered == value.delivered && d.retained == value.retained && d.archive == value.archive
                 && d.error == value.error && d.idle == value.idle && d.session == value.session
    ensures r.Stored? && tries > 0 ==>
              var d, met := r.doc.value.value, attempts[tries - 1].now.value.value;
              && d.session == met.session && d.previous == met.previous && d.request == met.request
    ensures r.Stored? && tries > 0 && OnlyQueueMoves(attempts, value.session, previous.value.value.delivered) ==>
              var d, met := r.doc.value.value, attempts[tries - 1].now.value.value;
              if value.delivered == previous.value.value.delivered then d.pending == met.pending
              else written.Some? && exists before :: SplitsAt(Flatten(met.pending), before, written.value, Flatten(d.pending))
    ensures r.NewSession? ==> attempts[tries].Lost? && !(attempts[tries].now.value.Some? && attempts[tries].now.value.value.session == value.session)
    ensures r.Reset? && OnlyQueueMoves(attempts, value.session, previous.value.value.delivered) ==>
              && attempts[tries].Lost? && attempts[tries].now.value.Some?
              && value.delivered != previous.value.value.delivered
              && (written.Some? ==> written.value !in Flatten(attempts[tries].now.value.value.pending))
  {
    hide Remaining, Flatten, SplitsAt;
    var was, mine := previous, value;
    ghost var held := OnlyQueueMoves(attempts, value.session, previous.value.value.delivered);
    tries := 0;
    while tries < |attempts|
      invariant tries <= |attempts|
      invariant was.value.Some? && mine.session == value.session
      invariant mine.delivered == value.delivered && mine.retained == value.retained
      invariant mine.archive == value.archive && mine.error == value.error && mine.idle == value.idle
      invariant held ==> was.value.value.delivered == previous.value.value.delivered
      invariant tries == 0 ==> was == previous && mine == value
      invariant tries > 0 ==> attempts[tries - 1].Lost? && was == attempts[tries - 1].now
      invariant tries > 0 ==> mine == was.value.value.(delivered := mine.delivered, retained := mine.retained, archive := mine.archive,
                                                       error := mine.error, idle := mine.idle, pending := mine.pending)
      invariant held && tries > 0 ==>
                  && Some(mine) == Rebase(was.value.value, previous.value.value, value, written)
                  && (value.delivered != previous.value.value.delivered ==>
                        written.Some? && exists before ::
                          SplitsAt(Flatten(was.value.value.pending), before, written.value, Flatten(mine.pending)))
    {
      match attempts[tries] {
        case Won => return Stored(Document(Some(mine), was.version + 1)), tries;
        case LeaseLost => return NoLease, tries;
        case Lost(now) =>
          if now.value.None? || now.value.value.session != mine.session {
            return NewSession, tries;
          }
          assert attempts[tries] in attempts;
          var pending := now.value.value.pending;
          if mine.delivered != was.value.value.delivered {
            if written.None? {
              return Reset, tries;
            }
            var cut := RemainingCutsThere(pending, written.value);
            if Remaining(pending, written.value).None? {
              return Reset, tries;
            }
            pending := Remaining(pending, written.value).value;
          }
          mine := Merge(now.value.value, mine, pending);
          was := now;
      }
      tries := tries + 1;
    }
    r := Interrupted;
  }
}
