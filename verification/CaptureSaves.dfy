/**
 What a worker's save leaves in the document, through any number of conflicts with requests, and what leases and
 errors do to the next claim (`CaptureWorker.save`, `deliver` and `once` in capture.py; capture_store.py).
 */
module CaptureSaves {
  import opened Basics
  import opened Anchors
  import opened CaptureTurns
  import opened CaptureOrder
  import opened CaptureWorker
  import opened CaptureQueue
  import opened CaptureProtocol
  import opened CaptureRestarts

  /** The worker whose step an event is. */
  function OwnerOf(e: Event): Option<nat> {
    match e
    case Tick(_) => None
    case Confirm(_, _, _, _, _) => None
    case ConfirmCut(_, _, _, _, _, _) => None
    case Stage(_, _, _, _, _, _) => None
    case ResetCapture(_, _) => None
    case Claim(o) => Some(o)
    case Read(o) => Some(o)
    case Write(o) => Some(o)
    case Finish(o) => Some(o)
    case Put(o, _) => Some(o)
    case Swap(o) => Some(o)
    case Retry(o) => Some(o)
    case Fail(o, _) => Some(o)
    case Stop(o) => Some(o)
    case Release(o) => Some(o)
  }

  /** Requests and other workers do as they like; this worker only tries its save again. */
  predicate OnlyRetries(mid: seq<Event>, o: nat) {
    forall e :: e in mid && OwnerOf(e) == Some(o) ==> e == Retry(o)
  }

  /** The worker's own fields are still those it set out to save. */
  predicate SameWork(a: Worker, b: Worker)
    requires a.Saving? && b.Saving?
  {
    && b.mine.delivered == a.mine.delivered && b.mine.retained == a.mine.retained && b.mine.archive == a.mine.archive
    && b.mine.error == a.mine.error && b.mine.idle == a.mine.idle
    && (a.written.None? && a.mine.pending == a.value.pending ==> b.mine.pending == b.value.pending)
    && a.written == b.written
  }

  /** The other fields are those of the document the worker met last. */
  predicate OnTop(w: Worker)
    requires w.Saving?
  {
    w.mine.session == w.value.session && w.mine.previous == w.value.previous && w.mine.request == w.value.request
  }

  lemma StepLeaves(s: State, o: nat, e: Event)
    requires Enabled(s, e) && o in s.workers && OwnerOf(e) != Some(o)
    ensures o in Step(s, e).workers && Step(s, e).workers[o] == s.workers[o]
  {
    hide Advance, ConfirmedBy, Aligned, Chain, SwapRow, ReadyAt, Delivered, Changed, Archives, CommitAllowed, Rebase, NewCapture, Claimable, IsUser;
  }

  lemma RetrySame(s: State, o: nat)
    requires CanRetry(s, o) && OnTop(s.workers[o])
    ensures var w := DoRetry(s, o).workers[o];
            w.Stopped? || (w.Saving? && SameWork(s.workers[o], w) && OnTop(w))
  {
    hide Remaining;
  }

  lemma {:induction false} SavingStays(s: State, o: nat, mid: seq<Event>)
    requires Runs(s, mid) && OnlyRetries(mid, o)
    requires o in s.workers && s.workers[o].Saving? && OnTop(s.workers[o])
    ensures var t := Outcome(s, mid);
            && o in t.workers
            && (t.workers[o].Stopped? || (t.workers[o].Saving? && SameWork(s.workers[o], t.workers[o]) && OnTop(t.workers[o])))
    decreases |mid|
  {
    hide Step, Enabled, CanRetry, DoRetry, OnTop, SameWork;
    SameWorkItself(s.workers[o]);
    if mid != [] {
      var next := Step(s, mid[0]);
      assert mid[0] in mid;
      if mid[0] == Retry(o) {
        StepIsRetry(s, o);
        RetrySame(s, o);
      } else {
        StepLeaves(s, o, mid[0]);
      }
      if next.workers[o].Stopped? {
        StoppedStays(next, o, mid[1..]);
      } else {
        SavingStays(next, o, mid[1..]);
        SameWorkChains(s.workers[o], next.workers[o], Outcome(s, mid).workers[o]);
      }
    }
  }

  lemma StepIsRetry(s: State, o: nat)
    requires Enabled(s, Retry(o))
    ensures CanRetry(s, o) && Step(s, Retry(o)) == DoRetry(s, o) && o in DoRetry(s, o).workers
  {
  }

  lemma SameWorkItself(w: Worker)
    requires w.Saving?
    ensures SameWork(w, w)
  {
  }

  lemma SameWorkChains(a: Worker, b: Worker, c: Worker)
    requires a.Saving? && b.Saving? && SameWork(a, b)
    ensures c.Saving? && SameWork(b, c) ==> SameWork(a, c)
  {
  }

  lemma {:induction false} StoppedStays(s: State, o: nat, mid: seq<Event>)
    requires Runs(s, mid) && OnlyRetries(mid, o) && o in s.workers && s.workers[o].Stopped?
    ensures o in Outcome(s, mid).workers && Outcome(s, mid).workers[o].Stopped?
    decreases |mid|
  {
    hide Step, Enabled;
    if mid != [] {
      assert mid[0] in mid;
      if mid[0] == Retry(o) {
        StepIsRetry(s, o);
        assert false;
      }
      StepLeaves(s, o, mid[0]);
      StoppedStays(Step(s, mid[0]), o, mid[1..]);
    }
  }

  // ---------------------------------------------------------------- what a won save stores

  /** A save: what worker `o` set out to store after `events`, what other steps did meanwhile, and its swap. */
  ghost predicate Won(events: seq<Event>, s: State, first: Event, mid: seq<Event>, m: State, o: nat) {
    && Runs(CaptureProtocol.Start, events) && s == Outcome(CaptureProtocol.Start, events)
    && (first.Finish? || first.Put? || first.Fail?) && OwnerOf(first) == Some(o) && Enabled(s, first)
    && Runs(Step(s, first), mid) && m == Outcome(Step(s, first), mid) && OnlyRetries(mid, o)
    && Enabled(m, Swap(o)) && Step(m, Swap(o)).stored != m.stored
    && s.row.Some? && m.row.Some? && Step(m, Swap(o)).row.Some?
  }

  lemma BeginsOnTop(s: State, first: Event, o: nat)
    requires Enabled(s, first) && (first.Finish? || first.Put? || first.Fail?) && OwnerOf(first) == Some(o)
    ensures var w := Step(s, first).workers[o]; o in Step(s, first).workers && (w.Stopped? || (w.Saving? && OnTop(w)))
  {
    hide Push, CommitAllowed, Archives;
  }

  /** The document after a won save holds the worker's fields; the rest is the document it replaced. */
  lemma WonStores(events: seq<Event>, s: State, first: Event, mid: seq<Event>, m: State, o: nat)
    requires Won(events, s, first, mid, m, o)
    ensures o in Step(s, first).workers && Step(s, first).workers[o].Saving?
    ensures var w := Step(s, first).workers[o];
            var n, met := Step(m, Swap(o)).row.value.value, m.row.value.value;
            && n.delivered == w.mine.delivered && n.retained == w.mine.retained && n.archive == w.mine.archive
            && n.error == w.mine.error && n.idle == w.mine.idle
            && n.session == met.session && n.previous == met.previous && n.request == met.request
            && (w.written.None? && w.mine.pending == w.value.pending ==> n.pending == met.pending)
            && Step(m, Swap(o)).row.value.ready == ReadyAt(n)
  {
    hide Inv, Step, Enabled, Runs, Outcome, SwapRow, ReadyAt, Recorded;
    RunsAreSound(events, s);
    StepKeeps(s, first);
    RunsKeep(Step(s, first), mid);
    BeginsOnTop(s, first, o);
    if Step(s, first).workers[o].Stopped? {
      StoppedStays(Step(s, first), o, mid);
      SwapNeedsSaving(m, o);
    } else {
      SavingStays(Step(s, first), o, mid);
      SwapNeedsSaving(m, o);
      SwapStores(m, o);
    }
  }

  lemma SwapNeedsSaving(m: State, o: nat)
    requires Enabled(m, Swap(o))
    ensures o in m.workers && m.workers[o].Saving? && CanSwap(m, o)
  {
  }

  lemma SwapStores(m: State, o: nat)
    requires Inv(m) && CanSwap(m, o) && Step(m, Swap(o)).stored != m.stored
    ensures var t := Step(m, Swap(o));
            && t.row.Some? && m.row.Some? && t.row.value.value == m.workers[o].mine && m.row.value.value == m.workers[o].value
            && t.row.value.ready == ReadyAt(m.workers[o].mine)
  {
    hide Inv, SwapRow, ReadyAt;
    var w := m.workers[o];
    var (row, result) := SwapRow(m.row, w.version, w.mine, ReadyAt(w.mine), Some(o), m.now);
    assert result == Swapped;
    SwapIsCurrent(m, o, row);
  }

  /** In every run: a commit that is saved, after any number of conflicts, leaves the archive it started and the
      turns it kept: none when idle, else the shortest run of last turns that reaches the limit. It takes nothing
      from the queue. */
  lemma CommitIsStored(events: seq<Event>, s: State, mid: seq<Event>, m: State, o: nat, limit: nat, kept: nat,
                       started: Option<Archive>)
    requires Won(events, s, Put(o, Commit(limit, kept, started)), mid, m, o)
    ensures o in s.workers && s.workers[o].Delivering?
    ensures var v := s.workers[o].value;
            var n, met := Step(m, Swap(o)).row.value.value, m.row.value.value;
            && n.archive == started
            && kept < |v.retained| && n.retained == v.retained[|v.retained| - kept..]
            && (v.idle ==> n.retained == []) && (!v.idle ==> SumCounts(n.retained) >= limit)
            && (forall i :: 0 < i <= |n.retained| ==> SumCounts(n.retained[i..]) < limit)
            && n.delivered == v.delivered && n.error == v.error && n.idle == v.idle
            && n.session == met.session && n.previous == met.previous && n.request == met.request
            && n.pending == met.pending
  {
    hide Inv, Runs, Outcome, ReadyAt, DoSwap, OnlyRetries, SumCounts;
    WonStores(events, s, Put(o, Commit(limit, kept, started)), mid, m, o);
    var r := s.workers[o].value.retained;
    var last := r[|r| - kept..];
    forall i | 0 < i <= |last| ensures SumCounts(last[i..]) < limit {
      assert last[i..] == r[|r| - kept + i..];
    }
  }

  /** In every run: the other changes a worker saves, each to its own field. */
  lemma ChangeIsStored(events: seq<Event>, s: State, mid: seq<Event>, m: State, o: nat, change: Change)
    requires !change.Commit? && Won(events, s, Put(o, change), mid, m, o)
    ensures o in s.workers && s.workers[o].Delivering?
    ensures var v := s.workers[o].value;
            var n, met := Step(m, Swap(o)).row.value.value, m.row.value.value;
            && n.archive == (if change.Observe? then Some(change.archive) else if change.Disable? then None else v.archive)
            && (change.Observe? ==> n.error == v.error)
            && (change.Recover? || change.Disable? ==> n.error.None?)
            && (change.Revoke? ==> n.error.Some? && n.error.value.keyRevoked && Step(m, Swap(o)).row.value.ready.None?)
            && n.retained == v.retained && n.delivered == v.delivered && n.idle == v.idle
            && n.session == met.session && n.previous == met.previous && n.request == met.request
            && (!change.Disable? ==> n.pending == met.pending)
  {
    hide Inv, Runs, Outcome, DoSwap, OnlyRetries;
    WonStores(events, s, Put(o, change), mid, m, o);
  }

  /** In every run: an error that is saved, after any number of conflicts, is the one met, and the document waits
      for its retry time. Everything else is the document that was current. */
  lemma FailureIsStored(events: seq<Event>, s: State, mid: seq<Event>, m: State, o: nat, failure: Failure)
    requires Won(events, s, Fail(o, failure), mid, m, o)
    ensures var v, met := s.row.value.value, m.row.value.value;
            var t := Step(m, Swap(o));
            && t.row.value.value == met.(error := Some(failure), delivered := v.delivered, retained := v.retained,
                                         archive := v.archive, idle := v.idle)
            && t.row.value.ready == failure.retryAt
  {
    hide Inv, Runs, Outcome, DoSwap, OnlyRetries;
    WonStores(events, s, Fail(o, failure), mid, m, o);
  }

  lemma PushCounts(retained: seq<Retained>, turn: Turn)
    ensures SumCounts(Push(retained, turn)) == SumCounts(retained) + |turn.messages|
    ensures Push(retained, turn) != [] && Last(Push(retained, turn)).anchor == turn.anchor
    ensures |Push(retained, turn)| == |retained| + if turn.continued && retained != [] then 0 else 1
  {
    hide SumCounts;
    OneCount(Last(Push(retained, turn)));
    if turn.continued && retained != [] {
      var init := retained[..|retained| - 1];
      OneCount(Last(retained));
      assert retained == init + [Last(retained)];
      SumCountsConcat(init, [Last(retained)]);
      SumCountsConcat(init, [Last(Push(retained, turn))]);
    } else {
      SumCountsConcat(retained, [Last(Push(retained, turn))]);
    }
  }

  lemma OneCount(r: Retained)
    ensures SumCounts([r]) == r.count
  {
    assert [r][1..] == [];
  }

  /** In every run: a delivered segment that is recorded, after any number of conflicts, moves `delivered` to its
      last message, and the document counts as idle exactly if the segment was not confirmed. */
  lemma DeliveryIsStored(events: seq<Event>, s: State, mid: seq<Event>, m: State, o: nat)
    requires Won(events, s, Finish(o), mid, m, o)
    ensures o in s.workers && s.workers[o].Delivering? && s.workers[o].value.pending != []
    ensures var v := s.workers[o].value;
            var turn := v.pending[0];
            var n, met := Step(m, Swap(o)).row.value.value, m.row.value.value;
            && n.delivered == Some(turn.anchor) && (n.idle <==> !turn.confirmed)
            && SumCounts(n.retained) == SumCounts(v.retained) + |turn.messages|
            && n.archive == v.archive && n.error == v.error
            && n.session == met.session && n.previous == met.previous && n.request == met.request
  {
    hide Inv, Runs, Outcome, DoSwap, OnlyRetries, SumCounts, Push;
    WonStores(events, s, Finish(o), mid, m, o);
    PushCounts(s.workers[o].value.retained, s.workers[o].value.pending[0]);
  }

  // ---------------------------------------------------------------- writes

  /** A write sends the next messages of the first segment, at most a hundred, and only once that segment is due;
      the worker records the segment only when all of them were sent. */
  lemma WritesAreDue(s: State, o: nat)
    requires Enabled(s, Write(o))
    ensures var w, t := s.workers[o], Step(s, Write(o));
            var turn := w.value.pending[0];
            && turn.ready <= s.now
            && w.session in t.received && s.received[w.session] <= t.received[w.session]
            && var sent := t.received[w.session][|s.received[w.session]|..];
               && 0 < |sent| <= 100 && w.offset + |sent| <= |turn.messages|
               && sent == turn.messages[w.offset..w.offset + |sent|]
               && (Enabled(t, Finish(o)) <==> w.offset + |sent| == |turn.messages|)
  {
    hide Delivered;
  }

  // ---------------------------------------------------------------- claims

  /** In every run: a document with an error can be claimed exactly when its retry time has come and no lease is on
      it; one whose key was revoked waits for a request. */
  lemma ErrorsWait(events: seq<Event>, s: State, o: nat)
    requires Runs(CaptureProtocol.Start, events) && s == Outcome(CaptureProtocol.Start, events)
    requires o !in s.workers && s.row.Some? && s.row.value.value.error.Some?
    ensures var at := s.row.value.value.error.value.retryAt;
            Enabled(s, Claim(o)) <==> at.Some? && at.value <= s.now && s.row.value.lease < s.now
  {
    hide Inv, Runs, Outcome;
    RunsAreSound(events, s);
    InvParts(s);
  }

  /** In every run: a document without an error can be claimed exactly when its first segment or its open archive
      is due and no lease is on it. */
  lemma DueDocuments(events: seq<Event>, s: State, o: nat)
    requires Runs(CaptureProtocol.Start, events) && s == Outcome(CaptureProtocol.Start, events)
    requires o !in s.workers && s.row.Some? && s.row.value.value.error.None?
    ensures var v := s.row.value.value;
            Enabled(s, Claim(o)) <==>
              && s.row.value.lease < s.now
              && (|| (v.pending != [] && v.pending[0].ready <= s.now)
                  || (v.archive.Some? && !v.archive.value.terminal && v.archive.value.nextCheck <= s.now))
  {
    hide Inv, Runs, Outcome;
    RunsAreSound(events, s);
    InvParts(s);
  }

  /** A worker that releases its document leaves it to the next at once. */
  lemma ReleaseFrees(events: seq<Event>, s: State, o: nat, p: nat)
    requires Runs(CaptureProtocol.Start, events) && s == Outcome(CaptureProtocol.Start, events)
    requires o in s.workers && p !in s.workers && s.row.Some? && s.row.value.owner == Some(o) && 0 < s.now
    requires s.row.value.ready.Some? && s.row.value.ready.value <= s.now
    ensures Enabled(s, Release(o)) && Enabled(Step(s, Release(o)), Claim(p))
  {
    hide Inv, Runs, Outcome;
  }

  lemma StoreLease(s: State, version: nat, value: Capture, o: nat)
    requires DocumentOk(s) && version <= |s.stored| && s.row.Some? && s.row.value.owner == Some(o)
    ensures var t := Store(s, version, value);
            t.row.Some? && t.row.value.owner == Some(o) && t.row.value.lease == s.row.value.lease && t.now == s.now
  {
    hide Store, DocumentOk;
    if Store(s, version, value) != s {
      StoreShape(s, version, value);
    }
  }

  /** A request leaves the lease alone. */
  lemma RequestLease(s: State, o: nat, e: Event)
    requires DocumentOk(s) && Enabled(s, e) && OwnerOf(e).None? && s.row.Some? && s.row.value.owner == Some(o)
    ensures var t := Step(s, e);
            t.row.Some? && t.row.value.owner == Some(o) && t.row.value.lease == s.row.value.lease && s.now <= t.now
  {
    hide Advance, ConfirmedBy, Aligned, Chain, NewCapture, IsUser, Store, DocumentOk;
    match e {
      case Tick(_) =>
      case Confirm(version, ms, user, at, uuid) =>
        ChainAligned(Seed, ms);
        StoreLease(s, version, ConfirmedBy(ValueAt(s, version), ms, user, at, uuid), o);
      case ConfirmCut(version, _, ms, user, stop, uuid) =>
        ChainAligned(Seed, ms);
        StoreLease(s, version, Advance(ValueAt(s, version).value, ms, Chain(Seed, ms), user, stop, true, 0, uuid).0, o);
      case Stage(version, _, ms, user, due, uuid) =>
        ChainAligned(Seed, ms);
        StoreLease(s, version, Advance(ValueAt(s, version).value, ms, Chain(Seed, ms), user, |ms|, false, due, uuid).0, o);
      case ResetCapture(version, uuid) =>
        StoreLease(s, version, NewCapture(uuid, ValueAt(s, version)), o);
    }
  }

  /** A worker changes the lease only by releasing it, or by claiming the document once it has run out. */
  lemma WorkerLease(s: State, o: nat, e: Event)
    requires Enabled(s, e) && OwnerOf(e).Some? && e != Release(o)
    requires s.row.Some? && s.row.value.owner == Some(o) && s.now <= s.row.value.lease
    ensures var t := Step(s, e);
            t.row.Some? && t.row.value.owner == Some(o) && t.row.value.lease == s.row.value.lease && t.now == s.now
  {
    hide ReadyAt, Delivered, Changed, Archives, CommitAllowed, Rebase;
  }

  lemma LeaseStep(s: State, o: nat, e: Event)
    requires Inv(s) && Enabled(s, e) && e != Release(o)
    requires s.row.Some? && s.row.value.owner == Some(o) && s.now <= s.row.value.lease
    ensures var t := Step(s, e);
            t.row.Some? && t.row.value.owner == Some(o) && t.row.value.lease == s.row.value.lease && s.now <= t.now
  {
    hide Inv, Enabled, Step;
    if OwnerOf(e).None? {
      InvParts(s);
      RequestLease(s, o, e);
    } else {
      WorkerLease(s, o, e);
    }
  }

  lemma {:induction false} LeaseLasts(s: State, o: nat, mid: seq<Event>)
    requires Inv(s) && Runs(s, mid) && Release(o) !in mid && s.row.Some? && s.row.value.owner == Some(o)
    requires Outcome(s, mid).now <= s.row.value.lease
    ensures var t := Outcome(s, mid); t.row.Some? && t.row.value.lease == s.row.value.lease
    decreases |mid|
  {
    hide Inv, Step, Enabled;
    if mid != [] {
      NowGrows(s, mid);
      LeaseStep(s, o, mid[0]);
      StepKeeps(s, mid[0]);
      assert Release(o) !in mid[1..];
      LeaseLasts(Step(s, mid[0]), o, mid[1..]);
    }
  }

  lemma NowStep(s: State, e: Event)
    requires Enabled(s, e)
    ensures s.now <= Step(s, e).now
  {
    hide Advance, ConfirmedBy, Aligned, Chain, SwapRow, ReadyAt, Delivered, Changed, Archives, CommitAllowed, Rebase, NewCapture, Claimable, IsUser;
  }

  lemma {:induction false} NowGrows(s: State, mid: seq<Event>)
    requires Runs(s, mid)
    ensures s.now <= Outcome(s, mid).now
    decreases |mid|
  {
    hide Step, Enabled;
    if mid != [] {
      NowStep(s, mid[0]);
      NowGrows(Step(s, mid[0]), mid[1..]);
    }
  }

  /** In every run: for two minutes after a claim nobody else can claim the document, unless it is released. */
  lemma ClaimsExclude(events: seq<Event>, s: State, o: nat, mid: seq<Event>, m: State, p: nat)
    requires Runs(CaptureProtocol.Start, events) && s == Outcome(CaptureProtocol.Start, events) && Enabled(s, Claim(o))
    requires Runs(Step(s, Claim(o)), mid) && m == Outcome(Step(s, Claim(o)), mid) && Release(o) !in mid
    requires m.now <= s.now + 120
    ensures !Enabled(m, Claim(p))
  {
    hide Inv, Runs, Outcome, ReadyAt;
    RunsAreSound(events, s);
    StepKeeps(s, Claim(o));
    LeaseLasts(Step(s, Claim(o)), o, mid);
  }
}
