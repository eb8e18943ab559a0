/**
 Capture as a protocol: requests and workers race on one document (capture.py, capture_store.py).

 An event is one atomic step: a compare-and-swap by a request that read the document at any
 earlier version, or one step of a worker. Workers may crash, lose their lease and go on, or fail
 at any point; the server may acknowledge writes whose recording is lost. The document never
 expires during a run.
 */
module CaptureProtocol {
  import opened Basics
  import opened Anchors
  import opened CaptureTurns
  import opened CaptureOrder
  import opened CaptureWorker
  import opened CaptureQueue

  const BATCH := 100

  /** A worker, by where it stands in `once`. `session` is the claimed document's. */
  datatype Worker =
    | Claimed(session: nat)
    | Delivering(session: nat, value: Capture, version: nat, offset: nat)
    | Saving(session: nat, value: Capture, version: nat, mine: Capture, written: Option<Captured>,
             turn: seq<Captured>, commit: nat)
    | Stopped(session: nat)

  /** `stored[v - 1]` is the document's value at version v. Per OpenViking session: `log`, the
      messages recorded as delivered; `archived`, how many of them recorded commits took away;
      `received`, what the server acknowledged. `leases`: until when unreleased claims were granted. */
  datatype State = State(now: int, row: Option<Row>, stored: seq<Capture>,
                         log: map<nat, seq<Captured>>, archived: map<nat, nat>,
                         received: map<nat, seq<Captured>>,
                         workers: map<nat, Worker>, leases: map<nat, int>)

  /** The saves of `deliver` and `once` that do not move `delivered`. */
  datatype Change =
    | Disable
    | Observe(archive: Archive)
    | Recover
    | Revoke
    | Commit(limit: nat, kept: nat, started: Option<Archive>)

  datatype Event =
    | Tick(to: int)
    | Confirm(version: nat, ms: seq<Message>, user: nat, at: int, uuid: nat)
    | ConfirmCut(version: nat, target: nat, ms: seq<Message>, user: nat, stop: nat, uuid: nat)
    | Stage(version: nat, target: nat, ms: seq<Message>, user: nat, due: int, uuid: nat)
    | ResetCapture(version: nat, uuid: nat)
    | Claim(owner: nat)
    | Read(owner: nat)
    | Write(owner: nat)
    | Finish(owner: nat)
    | Put(owner: nat, change: Change)
    | Swap(owner: nat)
    | Retry(owner: nat)
    | Fail(owner: nat, failure: Failure)
    | Stop(owner: nat)
    | Release(owner: nat)

  const Start: State := State(0, None, [], map[], map[], map[], map[], map[])

  // ---------------------------------------------------------------- requests

  /** The value a reader of `version` holds. */
  function ValueAt(s: State, version: nat): Option<Capture>
    requires version <= |s.stored|
  {
    if version == 0 then None else Some(s.stored[version - 1])
  }

  /** `confirm`: everything before the latest user message is confirmed. */
  function ConfirmedBy(was: Option<Capture>, ms: seq<Message>, user: nat, at: int, uuid: nat): Capture
    requires user < |ms| && IsUser(ms[user]) && Aligned(ms, Chain(Seed, ms))
  {
    var chain := Chain(Seed, ms);
    var found := if was.Some? then was.value else NewCapture(uuid, None);
    var kept := if exists t :: t in found.pending && t.ready <= at && Position(chain, t.anchor) < 0
                then NewCapture(uuid, Some(found)) else found;
    var queued := Advance(kept, ms, chain, user, user, true, 0, uuid).0;
    queued.(error := if queued.error.Some? && queued.error.value.keyRevoked then None else queued.error,
            request := chain[user])
  }

  /** A newer request or reset owns the document unless it still names this request. */
  predicate Owns(was: Option<Capture>, target: nat, ms: seq<Message>, user: nat) {
    && was.Some? && was.value.session == target
    && user < |ms| && was.value.request == Chain(Seed, ms)[user]
  }

  /** Stores a request's value if nobody stored another since it read the document. */
  function Store(s: State, version: nat, value: Capture): State {
    var (row, result) := SwapRow(s.row, version, value, ReadyAt(value), None, s.now);
    if result != Swapped then s
    else if value.session in s.log then s.(row := row, stored := s.stored + [value])
    else s.(row := row, stored := s.stored + [value], log := s.log[value.session := []],
            archived := s.archived[value.session := 0], received := s.received[value.session := []])
  }

  // ---------------------------------------------------------------- worker saves

  function Changed(v: Capture, change: Change): Capture {
    match change
    case Disable => v.(pending := [], archive := None, error := None)
    case Observe(archive) => v.(archive := Some(archive))
    case Recover => v.(error := None)
    case Revoke => v.(error := Some(Failure(0, true, None)))
    case Commit(_, kept, archive) =>
      v.(archive := archive, retained := if kept <= |v.retained| then v.retained[|v.retained| - kept..] else [])
  }

  /** How many delivered messages a change archives. */
  function Archives(v: Capture, change: Change): nat {
    if change.Commit? && change.kept <= |v.retained| then SumCounts(v.retained[..|v.retained| - change.kept]) else 0
  }

  /** What `KeepRecent` promises: a commit archives something and keeps what it should. */
  predicate CommitAllowed(v: Capture, change: Change) {
    change.Commit? ==>
      && change.kept < |v.retained|
      && (v.idle ==> change.kept == 0)
      && (!v.idle ==> SumCounts(v.retained[|v.retained| - change.kept..]) >= change.limit)
      && forall i :: |v.retained| - change.kept < i <= |v.retained| ==> SumCounts(v.retained[i..]) < change.limit
  }

  // ---------------------------------------------------------------- steps

  predicate CanConfirm(s: State, version: nat, ms: seq<Message>, user: nat, at: int, uuid: nat) {
    && version <= |s.stored| && at <= s.now && uuid !in s.log
    && user < |ms| && IsUser(ms[user])
  }

  function DoConfirm(s: State, version: nat, ms: seq<Message>, user: nat, at: int, uuid: nat): State
    requires CanConfirm(s, version, ms, user, at, uuid)
  {
    ChainAligned(Seed, ms);
    var value := ConfirmedBy(ValueAt(s, version), ms, user, at, uuid);
    if Some(value) == ValueAt(s, version) then s else Store(s, version, value)
  }

  /** `confirm_cut` and `stage`: queue the history up to `stop`, unless nothing is left to queue. */
  predicate CanQueue(s: State, version: nat, target: nat, ms: seq<Message>, user: nat, stop: nat, uuid: nat) {
    && version <= |s.stored| && uuid !in s.log && stop <= |ms|
    && Owns(ValueAt(s, version), target, ms, user) && IsUser(ms[user])
  }

  function DoQueue(s: State, version: nat, target: nat, ms: seq<Message>, user: nat, stop: nat,
                   confirmed: bool, due: int, uuid: nat): State
    requires CanQueue(s, version, target, ms, user, stop, uuid)
  {
    ChainAligned(Seed, ms);
    var (value, added) := Advance(ValueAt(s, version).value, ms, Chain(Seed, ms), user, stop, confirmed, due, uuid);
    if added == [] then s else Store(s, version, value)
  }

  predicate CanClaim(s: State, o: nat) {
    o !in s.workers && s.row.Some? && Claimable(s.row.value, s.now)
  }

  function DoClaim(s: State, o: nat): State
    requires CanClaim(s, o)
  {
    s.(row := Some(ClaimRow(s.row.value, o, s.now)),
       workers := s.workers[o := Claimed(s.row.value.value.session)],
       leases := s.leases[o := s.now + LEASE_SECONDS])
  }

  predicate CanRead(s: State, o: nat) {
    o in s.workers && s.workers[o].Claimed? && s.row.Some?
  }

  function DoRead(s: State, o: nat): State
    requires CanRead(s, o)
  {
    var session := s.workers[o].session;
    SetWorker(s, o, if s.row.value.value.session != session then Stopped(session)
                    else Delivering(session, s.row.value.value, s.row.value.version, 0))
  }

  predicate CanWrite(s: State, o: nat) {
    && o in s.workers && s.workers[o].Delivering? && s.workers[o].session in s.received
    && var w := s.workers[o];
       w.value.pending != [] && w.value.pending[0].ready <= s.now && w.offset < |w.value.pending[0].messages|
  }

  /** The server acknowledges the next batch of the first segment. */
  function DoWrite(s: State, o: nat): State
    requires CanWrite(s, o)
  {
    var w := s.workers[o];
    var messages := w.value.pending[0].messages;
    var batch := messages[w.offset..Min(w.offset + BATCH, |messages|)];
    SetWorker(s, o, w.(offset := w.offset + BATCH))
      .(received := s.received[w.session := s.received[w.session] + batch])
  }

  predicate CanFinish(s: State, o: nat) {
    && o in s.workers && s.workers[o].Delivering?
    && var w := s.workers[o];
       w.value.pending != [] && w.offset >= |w.value.pending[0].messages| > 0
  }

  function DoFinish(s: State, o: nat): State
    requires CanFinish(s, o)
  {
    var w := s.workers[o];
    var messages := w.value.pending[0].messages;
    SetWorker(s, o, Saving(w.session, w.value, w.version, Delivered(w.value), Some(Last(messages)), messages, 0))
  }

  predicate CanPut(s: State, o: nat, change: Change) {
    && o in s.workers && s.workers[o].Delivering? && s.workers[o].offset == 0
    && CommitAllowed(s.workers[o].value, change)
  }

  function DoPut(s: State, o: nat, change: Change): State
    requires CanPut(s, o, change)
  {
    var w := s.workers[o];
    SetWorker(s, o, Saving(w.session, w.value, w.version, Changed(w.value, change), None, [],
                           Archives(w.value, change)))
  }

  predicate CanSwap(s: State, o: nat) {
    o in s.workers && s.workers[o].Saving? && s.workers[o].session in s.log.Keys * s.archived.Keys
  }

  /** A save's swap: it records the delivery, finds the lease gone, or finds a newer document. */
  function DoSwap(s: State, o: nat): State
    requires CanSwap(s, o)
  {
    var w := s.workers[o];
    var (row, result) := SwapRow(s.row, w.version, w.mine, ReadyAt(w.mine), Some(o), s.now);
    if result == Conflict then s
    else if result == NotOwner then SetWorker(s, o, Stopped(w.session))
    else Recorded(s, o, row)
  }

  function Recorded(s: State, o: nat, row: Option<Row>): State
    requires CanSwap(s, o)
  {
    var w := s.workers[o];
    SetWorker(s, o, Delivering(w.session, w.mine, w.version + 1, 0))
      .(row := row, stored := s.stored + [w.mine],
        log := s.log[w.session := s.log[w.session] + w.turn],
        archived := s.archived[w.session := s.archived[w.session] + w.commit])
  }

  predicate CanRetry(s: State, o: nat) {
    && o in s.workers && s.workers[o].Saving?
    && s.row.Some? && s.workers[o].version < s.row.value.version
  }

  /** A save that met a newer document merges into it, or gives the session up. */
  function DoRetry(s: State, o: nat): State
    requires CanRetry(s, o)
  {
    var w := s.workers[o];
    var rebased := Rebase(s.row.value.value, w.value, w.mine, w.written);
    SetWorker(s, o, if s.row.value.value.session != w.session || rebased.None? then Stopped(w.session)
                    else w.(value := s.row.value.value, version := s.row.value.version, mine := rebased.value))
  }

  predicate CanFail(s: State, o: nat) {
    o in s.workers && s.row.Some?
  }

  /** `once` catches an error and saves it. */
  function DoFail(s: State, o: nat, failure: Failure): State
    requires CanFail(s, o)
  {
    var session := s.workers[o].session;
    var current := s.row.value.value;
    SetWorker(s, o, if current.session != session then Stopped(session)
                    else Saving(session, current, s.row.value.version,
                                current.(error := Some(failure)), None, [], 0))
  }

  function DoRelease(s: State, o: nat): State
    requires o in s.workers && s.row.Some?
  {
    SetWorker(s, o, Stopped(s.workers[o].session))
      .(row := Some(ReleaseRow(s.row.value, o)), leases := s.leases - {o})
  }

  function SetWorker(s: State, o: nat, w: Worker): State {
    s.(workers := s.workers[o := w])
  }

  predicate Enabled(s: State, e: Event) {
    match e
    case Tick(to) => s.now <= to
    case Confirm(version, ms, user, at, uuid) => CanConfirm(s, version, ms, user, at, uuid)
    case ConfirmCut(version, target, ms, user, stop, uuid) => CanQueue(s, version, target, ms, user, stop, uuid)
    case Stage(version, target, ms, user, _, uuid) => CanQueue(s, version, target, ms, user, |ms|, uuid)
    case ResetCapture(version, uuid) => version <= |s.stored| && uuid !in s.log
    case Claim(o) => CanClaim(s, o)
    case Read(o) => CanRead(s, o)
    case Write(o) => CanWrite(s, o)
    case Finish(o) => CanFinish(s, o)
    case Put(o, change) => CanPut(s, o, change)
    case Swap(o) => CanSwap(s, o)
    case Retry(o) => CanRetry(s, o)
    case Fail(o, _) => CanFail(s, o)
    case Stop(o) => o in s.workers
    case Release(o) => o in s.workers && s.row.Some?
  }

  function Step(s: State, e: Event): State
    requires Enabled(s, e)
  {
    match e
    case Tick(to) => s.(now := to)
    case Confirm(version, ms, user, at, uuid) => DoConfirm(s, version, ms, user, at, uuid)
    case ConfirmCut(version, target, ms, user, stop, uuid) =>
      DoQueue(s, version, target, ms, user, stop, true, 0, uuid)
    case Stage(version, target, ms, user, due, uuid) =>
      DoQueue(s, version, target, ms, user, |ms|, false, due, uuid)
    case ResetCapture(version, uuid) => Store(s, version, NewCapture(uuid, ValueAt(s, version)))
    case Claim(o) => DoClaim(s, o)
    case Read(o) => DoRead(s, o)
    case Write(o) => DoWrite(s, o)
    case Finish(o) => DoFinish(s, o)
    case Put(o, change) => DoPut(s, o, change)
    case Swap(o) => DoSwap(s, o)
    case Retry(o) => DoRetry(s, o)
    case Fail(o, failure) => DoFail(s, o, failure)
    case Stop(o) => SetWorker(s, o, Stopped(s.workers[o].session))
    case Release(o) => DoRelease(s, o)
  }

  /** The events can happen one after the other, from `s`. */
  predicate Runs(s: State, events: seq<Event>)
    decreases |events|
  {
    events == [] || (Enabled(s, events[0]) && Runs(Step(s, events[0]), events[1..]))
  }

  function Outcome(s: State, events: seq<Event>): State
    requires Runs(s, events)
    decreases |events|
  {
    if events == [] then s else Outcome(Step(s, events[0]), events[1..])
  }

  // ---------------------------------------------------------------- the invariant

  /** Every session's recorded messages walk through one history, and the server got them in order. */
  ghost predicate SessionsOk(s: State) {
    && s.log.Keys == s.archived.Keys == s.received.Keys
    && forall k :: k in s.log ==> Walk(Seed, s.log[k]) && Subsequence(s.log[k], s.received[k])
  }

  /** `v` continues what session `v.session` has recorded, were `turn` recorded and `commit`
      messages archived on top. */
  ghost predicate Fits(s: State, v: Capture, turn: seq<Captured>, commit: nat) {
    && v.session in s.log && v.session in s.archived && v.session in s.received
    && Sound(v)
    && var log := s.log[v.session] + turn;
       var cut := s.archived[v.session] + commit;
       && Walk(Seed, log) && End(Seed, log) == From(v)
       && Subsequence(log, s.received[v.session])
       && cut <= |log| && WholeTurns(v.retained, log[cut..])
  }

  /** The sessions a document remembers: earlier ones, each once, that hold saved messages. */
  ghost predicate LineageOk(s: State, v: Capture) {
    && |v.previous| <= MAX_PREVIOUS
    && (forall i :: 0 <= i < |v.previous| ==> v.previous[i] in s.log && s.log[v.previous[i]] != [] && v.previous[i] != v.session)
    && (forall i, j :: 0 <= i < j < |v.previous| ==> v.previous[i] != v.previous[j])
  }

  ghost predicate DocumentOk(s: State) {
    && (s.row.None? <==> s.stored == [])
    && (s.row.Some? ==>
          var row := s.row.value;
          && row.version == |s.stored| && row.value == Last(s.stored)
          && row.ready == ReadyAt(row.value) && row.value.session in s.log
          && Fits(s, row.value, [], 0) && LineageOk(s, row.value))
  }

  predicate SameProgress(a: Capture, b: Capture) {
    a.session == b.session && a.delivered == b.delivered && a.retained == b.retained
  }

  /** The messages of the segment being written that the server has acknowledged so far. */
  function Acknowledged(w: Worker): seq<Captured>
    requires w.Delivering?
  {
    if w.value.pending == [] then []
    else w.value.pending[0].messages[..Min(w.offset, |w.value.pending[0].messages|)]
  }

  /** What the lease holder knows while the document stays in its session. */
  ghost predicate HolderOk(s: State, w: Worker)
    requires s.row.Some?
  {
    match w
    case Claimed(_) => true
    case Stopped(_) => true
    case Delivering(session, value, _, _) =>
      && SameProgress(value, s.row.value.value) && Fits(s, value, [], 0)
      && session in s.log && session in s.received
      && Subsequence(s.log[session] + Acknowledged(w), s.received[session])
    case Saving(session, value, _, mine, written, turn, commit) =>
      && SameProgress(value, s.row.value.value)
      && mine.session == session && mine.previous == value.previous && Fits(s, mine, turn, commit)
      && (mine.delivered == value.delivered ==> turn == [])
      && (mine.delivered != value.delivered ==> written.Some? && Some(written.value.source) == mine.delivered)
  }

  ghost predicate WorkersOk(s: State) {
    forall o :: o in s.workers ==>
      var w := s.workers[o];
      && w.session in s.log
      && (w.Delivering? || w.Saving? ==>
            w.value.session == w.session && 0 < w.version <= |s.stored| && s.stored[w.version - 1] == w.value)
      && (s.row.Some? && s.row.value.owner == Some(o) && s.row.value.value.session == w.session ==> HolderOk(s, w))
  }

  /** Claims that were not released have all expired, except the row's own. */
  ghost predicate LeasesOk(s: State) {
    && (s.row.None? ==> s.leases == map[])
    && (s.row.Some? ==>
          && (forall o :: o in s.leases && s.row.value.owner != Some(o) ==> s.leases[o] < s.now)
          && (s.row.value.owner.Some? ==>
                var o := s.row.value.owner.value;
                o in s.workers && o in s.leases && s.leases[o] == s.row.value.lease))
    && s.leases.Keys <= s.workers.Keys
  }

  ghost predicate Inv(s: State) {
    SessionsOk(s) && DocumentOk(s) && WorkersOk(s) && LeasesOk(s)
  }

  // ---------------------------------------------------------------- requests keep it

  /** What a request may store: a new session, or the same progress with another sound queue. */
  ghost predicate Moves(was: Option<Capture>, value: Capture, uuid: nat) {
    && Sound(value)
    && (|| (&& value.session == uuid && value.delivered.None? && value.retained == []
            && value.previous == NewCapture(uuid, was).previous)
        || (was.Some? && SameProgress(was.value, value) && value.previous == was.value.previous))
  }

  lemma AdvanceMoves(v: Capture, ms: seq<Message>, user: nat, stop: nat, confirmed: bool, ready: int, uuid: nat)
    requires Sound(v) && stop <= |ms| && Aligned(ms, Chain(Seed, ms))
    ensures Moves(Some(v), Advance(v, ms, Chain(Seed, ms), user, stop, confirmed, ready, uuid).0, uuid)
  {
    hide Advance, Sound, Restarts, Chain, Aligned;
    AdvanceWalks(v, ms, Chain(Seed, ms), user, stop, confirmed, ready, uuid);
  }

  lemma NewMoves(was: Option<Capture>, uuid: nat)
    ensures Moves(was, NewCapture(uuid, was), uuid)
  {
  }

  lemma ConfirmMoves(was: Option<Capture>, ms: seq<Message>, user: nat, at: int, uuid: nat)
    requires was.Some? ==> Sound(was.value)
    requires user < |ms| && IsUser(ms[user]) && Aligned(ms, Chain(Seed, ms))
    ensures Moves(was, ConfirmedBy(was, ms, user, at, uuid), uuid)
  {
    hide Advance, Restarts, Chain, Aligned, Position, Walk, QueueOk;
    var chain := Chain(Seed, ms);
    var found := if was.Some? then was.value else NewCapture(uuid, None);
    var kept := if exists t :: t in found.pending && t.ready <= at && Position(chain, t.anchor) < 0
                then NewCapture(uuid, Some(found)) else found;
    NewMoves(None, uuid);
    NewMoves(Some(found), uuid);
    AdvanceMoves(kept, ms, user, user, true, 0, uuid);
    if kept.delivered.None? && kept.pending == [] {
      FreshStays(kept, ms, chain, user, user, true, 0, uuid);
    }
  }

  /** A session that has nothing yet is not left again. */
  lemma FreshStays(v: Capture, ms: seq<Message>, chain: seq<Option<Anchor>>, user: nat, stop: nat,
                   confirmed: bool, ready: int, uuid: nat)
    requires v.delivered.None? && v.pending == [] && Aligned(ms, chain) && stop <= |ms|
    ensures var w := Advance(v, ms, chain, user, stop, confirmed, ready, uuid).0; w == v.(pending := w.pending)
  {
    assert !Restarts(v, chain, user);
  }

  lemma FitsNew(s: State, value: Capture)
    requires Sound(value) && value.delivered.None? && value.retained == []
    requires value.session in s.log && value.session in s.archived && value.session in s.received
    requires s.log[value.session] == [] && s.archived[value.session] == 0
    ensures Fits(s, value, [], 0)
  {
    assert s.log[value.session] + [] == [];
  }

  /** A delivered anchor means recorded messages. */
  lemma DeliveredIsLogged(s: State, v: Capture)
    requires Fits(s, v, [], 0)
    ensures v.delivered.Some? ==> s.log[v.session] != []
  {
    hide Walk, WholeTurns;
    assert s.log[v.session] + [] == s.log[v.session];
  }

  lemma LineageGrows(s: State, t: State, was: Option<Capture>, value: Capture, uuid: nat)
    requires was.Some? ==> Fits(s, was.value, [], 0) && LineageOk(s, was.value)
    requires uuid !in s.log && Moves(was, value, uuid)
    requires forall k :: k in s.log ==> k in t.log && t.log[k] == s.log[k]
    ensures LineageOk(t, value)
  {
    hide Sound, Walk, WholeTurns, Subsequence;
    if was.Some? {
      DeliveredIsLogged(s, was.value);
    }
  }

  /** Nothing recorded about session `k` changed, except that the server may have received `more`. */
  ghost predicate SameSession(s: State, t: State, k: nat, more: seq<Captured>) {
    && k in s.log && k in s.archived && k in s.received && k in t.log && k in t.archived && k in t.received
    && t.log[k] == s.log[k] && t.archived[k] == s.archived[k] && t.received[k] == s.received[k] + more
  }

  lemma FitsFrame(s: State, t: State, v: Capture, turn: seq<Captured>, commit: nat, more: seq<Captured>)
    requires Fits(s, v, turn, commit) && SameSession(s, t, v.session, more)
    ensures Fits(t, v, turn, commit)
  {
    hide Sound, Walk, WholeTurns, Subsequence;
    SubsequenceExtends(s.log[v.session] + turn, s.received[v.session], more);
  }

  lemma HolderFrame(s: State, t: State, w: Worker, more: seq<Captured>)
    requires s.row.Some? && t.row.Some? && SameProgress(s.row.value.value, t.row.value.value)
    requires w.Delivering? || w.Saving? ==> w.value.session == w.session
    requires HolderOk(s, w) && SameSession(s, t, w.session, more)
    ensures HolderOk(t, w)
  {
    hide Fits, Subsequence, Acknowledged;
    match w
    case Claimed(_) =>
    case Stopped(_) =>
    case Delivering(session, value, _, _) =>
      FitsFrame(s, t, value, [], 0, more);
      SubsequenceExtends(s.log[session] + Acknowledged(w), s.received[session], more);
    case Saving(_, _, _, mine, _, turn, commit) =>
      FitsFrame(s, t, mine, turn, commit, more);
  }

  /** What a successful store changes, and what it leaves alone. */
  lemma StoreShape(s: State, version: nat, value: Capture)
    requires DocumentOk(s) && version <= |s.stored| && Store(s, version, value) != s
    ensures var t := Store(s, version, value);
            && version == |s.stored|
            && t.row == Some(Row(value, |s.stored| + 1, ReadyAt(value), if s.row.Some? then s.row.value.lease else 0,
                                 if s.row.Some? then s.row.value.owner else None))
            && t.stored == s.stored + [value]
            && t.now == s.now && t.workers == s.workers && t.leases == s.leases
            && (value.session in s.log ==> t.log == s.log && t.archived == s.archived && t.received == s.received)
            && (value.session !in s.log ==>
                  && t.log == s.log[value.session := []] && t.archived == s.archived[value.session := 0]
                  && t.received == s.received[value.session := []])
  {
    hide Fits, LineageOk, ReadyAt;
  }

  lemma StoreDocument(s: State, value: Capture, uuid: nat, t: State)
    requires Inv(s) && uuid !in s.log && Moves(ValueAt(s, |s.stored|), value, uuid)
    requires t == Store(s, |s.stored|, value) && t != s
    ensures SessionsOk(t) && DocumentOk(t)
  {
    hide Store, Sound, Walk, WholeTurns, Subsequence, ReadyAt, NewCapture, LineageOk, Fits, WorkersOk, LeasesOk;
    StoreShape(s, |s.stored|, value);
    var was := ValueAt(s, |s.stored|);
    LineageGrows(s, t, was, value, uuid);
    EmptySession();
    if value.session !in s.log {
      FitsNew(t, value);
    } else {
      FitsSame(s, was.value, value);
      FitsFrame(s, t, value, [], 0, []);
    }
  }

  lemma FitsSame(s: State, was: Capture, value: Capture)
    requires Fits(s, was, [], 0) && SameProgress(was, value) && Sound(value)
    ensures Fits(s, value, [], 0)
  {
    hide Sound, Walk, WholeTurns, Subsequence;
  }

  lemma StoreWorkers(s: State, value: Capture, uuid: nat, t: State)
    requires Inv(s) && uuid !in s.log && Moves(ValueAt(s, |s.stored|), value, uuid)
    requires t == Store(s, |s.stored|, value) && t != s
    ensures WorkersOk(t) && LeasesOk(t)
  {
    hide Store, Sound, Walk, WholeTurns, Subsequence, ReadyAt, NewCapture, LineageOk, Fits, HolderOk;
    StoreShape(s, |s.stored|, value);
    forall o | o in t.workers && t.row.value.owner == Some(o) && value.session == t.workers[o].session
      ensures HolderOk(t, t.workers[o])
    {
      HolderFrame(s, t, s.workers[o], []);
    }
  }

  lemma StoreKeeps(s: State, version: nat, value: Capture, uuid: nat)
    requires Inv(s) && version <= |s.stored| && uuid !in s.log
    requires version == |s.stored| ==> Moves(ValueAt(s, version), value, uuid)
    ensures Inv(Store(s, version, value))
  {
    hide Store, SessionsOk, DocumentOk, WorkersOk, LeasesOk, Moves;
    var t := Store(s, version, value);
    if t != s {
      StoreShape(s, version, value);
      StoreDocument(s, value, uuid, t);
      StoreWorkers(s, value, uuid, t);
    }
  }

  lemma EmptySession()
    ensures Walk(Seed, []) && Subsequence<Captured>([], [])
  {
  }

  // ---------------------------------------------------------------- workers keep it

  ghost predicate Holds(s: State, o: nat, session: nat) {
    s.row.Some? && s.row.value.owner == Some(o) && s.row.value.value.session == session
  }

  lemma SetWorkerKeeps(s: State, o: nat, w: Worker)
    requires Inv(s) && o in s.workers && w.session == s.workers[o].session
    requires w.Delivering? || w.Saving? ==>
               w.value.session == w.session && 0 < w.version <= |s.stored| && s.stored[w.version - 1] == w.value
    requires Holds(s, o, w.session) ==> HolderOk(s, w)
    ensures Inv(SetWorker(s, o, w))
  {
    hide Sound, Walk, WholeTurns, Subsequence, ReadyAt, LineageOk, Fits, HolderOk;
    var t := SetWorker(s, o, w);
    if s.row.Some? {
      FitsFrame(s, t, s.row.value.value, [], 0, []);
      LineageFrame(s, t, s.row.value.value);
    }
    forall p | p in t.workers && Holds(t, p, t.workers[p].session)
      ensures HolderOk(t, t.workers[p])
    {
      HolderFrame(s, t, t.workers[p], []);
    }
  }

  lemma LineageFrame(s: State, t: State, v: Capture)
    requires LineageOk(s, v) && forall k :: k in s.log ==> k in t.log && (s.log[k] != [] ==> t.log[k] != [])
    ensures LineageOk(t, v)
  {
  }

  /** A segment whose messages were all acknowledged can be recorded. */
  lemma FinishFits(s: State, w: Worker)
    requires s.row.Some? && w.Delivering? && w.value.session == w.session && HolderOk(s, w)
    requires w.value.pending != [] && w.offset >= |w.value.pending[0].messages| > 0
    ensures var messages := w.value.pending[0].messages;
            HolderOk(s, Saving(w.session, w.value, w.version, Delivered(w.value), Some(Last(messages)), messages, 0))
  {
    hide Sound, Walk, WholeTurns, Subsequence, Flatten;
    var v, turn, log := w.value, w.value.pending[0], s.log[w.session];
    var cut := s.archived[w.session];
    assert log + [] == log;
    DeliveredWalks(v);
    WalkConcat(Seed, log, turn.messages);
    WalkDeepens(From(v), turn.messages, |turn.messages| - 1);
    assert turn.messages[..|turn.messages|] == turn.messages;
    FirstTurnOk(v);
    PushWhole(v.retained, log[cut..], turn);
    assert (log + turn.messages)[cut..] == log[cut..] + turn.messages;
  }

  lemma FirstTurnOk(v: Capture)
    requires Sound(v) && v.pending != []
    ensures TurnOk(v.pending[0])
  {
  }

  lemma ChangedSound(v: Capture, change: Change)
    requires Sound(v)
    ensures Sound(Changed(v, change)) && From(Changed(v, change)) == From(v)
  {
    hide Walk;
    EmptyWalk(From(v));
    EmptyFlat();
  }

  lemma ChangedTurns(v: Capture, change: Change, log: seq<Captured>)
    requires WholeTurns(v.retained, log) && CommitAllowed(v, change)
    ensures Archives(v, change) <= |log| && WholeTurns(Changed(v, change).retained, log[Archives(v, change)..])
  {
    hide WholeTurns;
    if change.Commit? {
      CommitWhole(v.retained, log, |v.retained| - change.kept);
    }
  }

  /** The other saves keep the recorded messages and the queue, or drop the queue. */
  lemma ChangeFits(s: State, v: Capture, change: Change)
    requires Fits(s, v, [], 0) && CommitAllowed(v, change)
    ensures Fits(s, Changed(v, change), [], Archives(v, change))
  {
    hide Walk, WholeTurns, Subsequence, Sound, CommitAllowed, Archives, From;
    var log, cut := s.log[v.session] + [], s.archived[v.session];
    ChangedSound(v, change);
    ChangedTurns(v, change, log[cut..]);
    assert log[cut..][Archives(v, change)..] == log[cut + Archives(v, change)..];
  }

  /** A merge after a conflict still fits: the queue it keeps starts right after what was written. */
  lemma RebaseFits(s: State, w: Worker, current: Capture)
    requires s.row.Some? && s.row.value.value == current && Fits(s, current, [], 0)
    requires w.Saving? && w.value.session == w.session && current.session == w.session && HolderOk(s, w)
    requires Rebase(current, w.value, w.mine, w.written).Some?
    ensures Fits(s, Rebase(current, w.value, w.mine, w.written).value, w.turn, w.commit)
  {
    hide Walk, WholeTurns, Subsequence, Remaining, Flatten, QueueOk, SplitsAt;
    if w.mine.delivered != w.value.delivered {
      var written := w.written.value;
      var before := RemainingCutsThere(current.pending, written);
      RemainingOk(current.pending, written);
      var rest := Flatten(Remaining(current.pending, written).value);
      SplitIsConcat(Flatten(current.pending), before, written, rest);
      WalkConcat(From(current), before + [written], rest);
    }
  }

  lemma SplitIsConcat(s: seq<Captured>, before: seq<Captured>, x: Captured, after: seq<Captured>)
    requires SplitsAt(s, before, x, after)
    ensures s == before + [x] + after
  {
  }

  lemma RetryKeeps(s: State, o: nat)
    requires Inv(s) && CanRetry(s, o)
    ensures Inv(DoRetry(s, o))
  {
    hide Fits, LineageOk, Rebase, SessionsOk, LeasesOk;
    var w, current := s.workers[o], s.row.value.value;
    var rebased := Rebase(current, w.value, w.mine, w.written);
    if current.session != w.session || rebased.None? {
      SetWorkerKeeps(s, o, Stopped(w.session));
    } else {
      if Holds(s, o, w.session) {
        RebaseFits(s, w, current);
        RebaseKeepsMine(current, w.value, w.mine, w.written);
      }
      SetWorkerKeeps(s, o, w.(value := current, version := s.row.value.version, mine := rebased.value));
    }
  }

  lemma RebaseKeepsMine(now: Capture, was: Capture, mine: Capture, written: Option<Captured>)
    requires Rebase(now, was, mine, written).Some?
    ensures var r := Rebase(now, was, mine, written).value;
            r.session == now.session && r.delivered == mine.delivered && r.previous == now.previous
  {
  }

  lemma ReadKeeps(s: State, o: nat)
    requires Inv(s) && CanRead(s, o)
    ensures Inv(DoRead(s, o))
  {
    hide Fits, LineageOk, SessionsOk, LeasesOk, Subsequence;
    var session, current := s.workers[o].session, s.row.value.value;
    if current.session != session {
      SetWorkerKeeps(s, o, Stopped(session));
    } else {
      var w := Delivering(session, current, s.row.value.version, 0);
      FreshReaderOk(s, w);
      SetWorkerKeeps(s, o, w);
    }
  }

  lemma FreshReaderOk(s: State, w: Worker)
    requires s.row.Some? && w.Delivering? && w.offset == 0 && w.session == w.value.session
    requires w.value == s.row.value.value && Fits(s, w.value, [], 0)
    ensures HolderOk(s, w)
  {
    hide Walk, WholeTurns, Subsequence, Sound;
    assert Acknowledged(w) == [];
  }

  lemma FailKeeps(s: State, o: nat, failure: Failure)
    requires Inv(s) && CanFail(s, o)
    ensures Inv(DoFail(s, o, failure))
  {
    hide LineageOk, SessionsOk, LeasesOk, Subsequence, Walk, WholeTurns;
    var session, current := s.workers[o].session, s.row.value.value;
    if current.session != session {
      SetWorkerKeeps(s, o, Stopped(session));
    } else {
      var failed := current.(error := Some(failure));
      SetWorkerKeeps(s, o, Saving(session, current, s.row.value.version, failed, None, [], 0));
    }
  }

  lemma FinishKeeps(s: State, o: nat)
    requires Inv(s) && CanFinish(s, o)
    ensures Inv(DoFinish(s, o))
  {
    hide HolderOk, LineageOk, SessionsOk, LeasesOk, Fits, Delivered;
    var w := s.workers[o];
    var messages := w.value.pending[0].messages;
    if Holds(s, o, w.session) {
      FinishFits(s, w);
    }
    SetWorkerKeeps(s, o, Saving(w.session, w.value, w.version, Delivered(w.value), Some(Last(messages)), messages, 0));
  }

  lemma PutKeeps(s: State, o: nat, change: Change)
    requires Inv(s) && CanPut(s, o, change)
    ensures Inv(DoPut(s, o, change))
  {
    hide LineageOk, SessionsOk, LeasesOk, Fits, Archives, Subsequence, CommitAllowed;
    var w := s.workers[o];
    if Holds(s, o, w.session) {
      ChangeFits(s, w.value, change);
    }
    SetWorkerKeeps(s, o, Saving(w.session, w.value, w.version, Changed(w.value, change), None, [],
                                Archives(w.value, change)));
  }

  lemma TickKeeps(s: State, to: int)
    requires Inv(s) && s.now <= to
    ensures Inv(s.(now := to))
  {
    hide LineageOk, Fits, HolderOk, Walk, Subsequence;
    var t := s.(now := to);
    if s.row.Some? {
      FitsFrame(s, t, s.row.value.value, [], 0, []);
      LineageFrame(s, t, s.row.value.value);
    }
    forall p | p in t.workers && Holds(t, p, t.workers[p].session) ensures HolderOk(t, t.workers[p]) {
      HolderFrame(s, t, t.workers[p], []);
    }
  }

  /** A claim waits for the last lease to end, so the claimant is alone. */
  lemma ClaimKeeps(s: State, o: nat)
    requires Inv(s) && CanClaim(s, o)
    ensures Inv(DoClaim(s, o))
  {
    hide LineageOk, Fits, Walk, Subsequence, ReadyAt;
    var t := DoClaim(s, o);
    FitsFrame(s, t, s.row.value.value, [], 0, []);
    LineageFrame(s, t, s.row.value.value);
  }

  lemma ReleaseKeeps(s: State, o: nat)
    requires Inv(s) && o in s.workers && s.row.Some?
    ensures Inv(DoRelease(s, o))
  {
    hide SessionsOk, DocumentOk, WorkersOk, LeasesOk;
    StopKeeps(s, o);
    LetGoKeeps(SetWorker(s, o, Stopped(s.workers[o].session)), o);
  }

  lemma LetGoKeeps(s: State, o: nat)
    requires Inv(s) && o in s.workers && s.row.Some?
    ensures Inv(s.(row := Some(ReleaseRow(s.row.value, o)), leases := s.leases - {o}))
  {
    hide LineageOk, Fits, HolderOk, Walk, Subsequence, ReadyAt;
    var t := s.(row := Some(ReleaseRow(s.row.value, o)), leases := s.leases - {o});
    FitsFrame(s, t, s.row.value.value, [], 0, []);
    LineageFrame(s, t, s.row.value.value);
    forall p | p in t.workers && Holds(t, p, t.workers[p].session) ensures HolderOk(t, t.workers[p]) {
      HolderFrame(s, t, t.workers[p], []);
    }
  }

  lemma WriteFrame(s: State, o: nat, batch: seq<Captured>, t: State, k: nat)
    requires o in s.workers && s.workers[o].session in s.received && k in s.log && SessionsOk(s)
    requires t.log == s.log && t.archived == s.archived
    requires t.received == s.received[s.workers[o].session := s.received[s.workers[o].session] + batch]
    ensures SameSession(s, t, k, if k == s.workers[o].session then batch else [])
  {
  }

  lemma AcknowledgedGrows(w: Worker)
    requires w.Delivering? && w.value.pending != [] && w.offset < |w.value.pending[0].messages|
    ensures Acknowledged(w.(offset := w.offset + BATCH)) == Acknowledged(w)
              + w.value.pending[0].messages[w.offset..Min(w.offset + BATCH, |w.value.pending[0].messages|)]
  {
  }

  /** The server gets a batch: the recorded messages stay a subsequence of what it received. */
  lemma WriteSessions(s: State, o: nat, batch: seq<Captured>, t: State)
    requires Inv(s) && o in s.workers && s.workers[o].session in s.received
    requires t.log == s.log && t.archived == s.archived && t.row == s.row && t.stored == s.stored
    requires t.received == s.received[s.workers[o].session := s.received[s.workers[o].session] + batch]
    ensures SessionsOk(t) && DocumentOk(t)
  {
    hide LineageOk, Fits, HolderOk, Walk, Subsequence, ReadyAt, SameSession;
    forall k | k in t.log ensures Walk(Seed, t.log[k]) && Subsequence(t.log[k], t.received[k]) {
      SubsequenceExtends(s.log[k], s.received[k], batch);
    }
    if s.row.Some? {
      var v := s.row.value.value;
      WriteFrame(s, o, batch, t, v.session);
      FitsFrame(s, t, v, [], 0, if v.session == s.workers[o].session then batch else []);
      LineageFrame(s, t, v);
    }
  }

  lemma WriteHolder(s: State, o: nat, w: Worker, batch: seq<Captured>, t: State)
    requires Inv(s) && o in s.workers && s.workers[o] == w && w.Delivering? && w.session in s.received
    requires w.value.pending != [] && w.offset < |w.value.pending[0].messages|
    requires batch == w.value.pending[0].messages[w.offset..Min(w.offset + BATCH, |w.value.pending[0].messages|)]
    requires t.log == s.log && t.archived == s.archived && t.row == s.row
    requires t.received == s.received[w.session := s.received[w.session] + batch]
    requires Holds(s, o, w.session)
    ensures HolderOk(t, w.(offset := w.offset + BATCH))
  {
    hide LineageOk, Fits, Walk, Subsequence, ReadyAt, Acknowledged;
    AcknowledgedGrows(w);
    WriteFrame(s, o, batch, t, w.session);
    FitsFrame(s, t, w.value, [], 0, batch);
    SubsequenceExtends(s.log[w.session] + Acknowledged(w), s.received[w.session], batch);
    assert s.log[w.session] + Acknowledged(w) + batch == s.log[w.session] + (Acknowledged(w) + batch);
  }

  lemma WriteWorker(s: State, o: nat, p: nat)
    requires Inv(s) && CanWrite(s, o)
    requires var t := DoWrite(s, o); p in t.workers && Holds(t, p, t.workers[p].session)
    ensures HolderOk(DoWrite(s, o), DoWrite(s, o).workers[p])
  {
    hide LineageOk, Fits, HolderOk, Walk, Subsequence, ReadyAt, SameSession, Sound;
    var w := s.workers[o];
    var messages := w.value.pending[0].messages;
    var batch := messages[w.offset..Min(w.offset + BATCH, |messages|)];
    var t := DoWrite(s, o);
    if p == o {
      WriteHolder(s, o, w, batch, t);
    } else {
      WriteFrame(s, o, batch, t, t.workers[p].session);
      HolderFrame(s, t, t.workers[p], if t.workers[p].session == w.session then batch else []);
    }
  }

  lemma WriteKeeps(s: State, o: nat)
    requires Inv(s) && CanWrite(s, o)
    ensures Inv(DoWrite(s, o))
  {
    hide LineageOk, Fits, HolderOk, Walk, Subsequence, ReadyAt, SameSession, Sound;
    var w := s.workers[o];
    var messages := w.value.pending[0].messages;
    var batch := messages[w.offset..Min(w.offset + BATCH, |messages|)];
    var t := DoWrite(s, o);
    WriteSessions(s, o, batch, t);
    forall p | p in t.workers && Holds(t, p, t.workers[p].session) ensures HolderOk(t, t.workers[p]) {
      WriteWorker(s, o, p);
    }
  }

  /** A recorded delivery: the worker's value becomes the document and its segment joins the log. */
  lemma SwapFits(s: State, v: Capture, turn: seq<Captured>, commit: nat, t: State)
    requires Fits(s, v, turn, commit) && SessionsOk(s)
    requires t.log == s.log[v.session := s.log[v.session] + turn]
    requires t.archived == s.archived[v.session := s.archived[v.session] + commit] && t.received == s.received
    ensures SessionsOk(t) && Fits(t, v, [], 0)
  {
    hide Walk, Subsequence, WholeTurns, Sound;
    assert t.log[v.session] + [] == s.log[v.session] + turn;
  }

  /** A worker's swap succeeds only for the lease holder, and on the document it last read. */
  lemma SwapIsCurrent(s: State, o: nat, row: Option<Row>)
    requires Inv(s) && CanSwap(s, o)
    requires var w := s.workers[o];
             SwapRow(s.row, w.version, w.mine, ReadyAt(w.mine), Some(o), s.now) == (row, Swapped)
    ensures var w := s.workers[o];
            && Holds(s, o, w.session) && HolderOk(s, w) && s.row.value.value == w.value && w.version == |s.stored|
            && row == Some(s.row.value.(value := w.mine, version := |s.stored| + 1, ready := ReadyAt(w.mine)))
  {
    hide SessionsOk, LeasesOk, HolderOk, Fits, LineageOk, ReadyAt;
  }

  lemma RecordedKeeps(s: State, o: nat, row: Option<Row>)
    requires Inv(s) && CanSwap(s, o)
    requires var w := s.workers[o];
             SwapRow(s.row, w.version, w.mine, ReadyAt(w.mine), Some(o), s.now) == (row, Swapped)
    ensures Inv(Recorded(s, o, row))
  {
    hide LineageOk, Fits, SessionsOk, ReadyAt, SwapRow;
    SwapIsCurrent(s, o, row);
    var w := s.workers[o];
    var t := Recorded(s, o, row);
    SwapFits(s, w.mine, w.turn, w.commit, t);
    LineageKeeps(s, t, w.mine, s.row.value.value);
    FreshReaderOk(t, t.workers[o]);
    assert DocumentOk(t) && LeasesOk(t);
    RecordedWorkers(s, o, row);
  }

  lemma RecordedWorkers(s: State, o: nat, row: Option<Row>)
    requires WorkersOk(s) && CanSwap(s, o) && s.workers[o].version == |s.stored|
    requires s.workers[o].mine.session == s.workers[o].session
    requires row.Some? && row.value.owner == Some(o)
    requires var t := Recorded(s, o, row); HolderOk(t, t.workers[o])
    ensures WorkersOk(Recorded(s, o, row))
  {
    hide HolderOk;
  }

  lemma SwapKeeps(s: State, o: nat)
    requires Inv(s) && CanSwap(s, o)
    ensures Inv(DoSwap(s, o))
  {
    hide SessionsOk, DocumentOk, WorkersOk, LeasesOk, ReadyAt, Recorded;
    var w := s.workers[o];
    var (row, result) := SwapRow(s.row, w.version, w.mine, ReadyAt(w.mine), Some(o), s.now);
    if result == NotOwner {
      StopKeeps(s, o);
    } else if result == Swapped {
      RecordedKeeps(s, o, row);
    }
  }

  lemma StopKeeps(s: State, o: nat)
    requires Inv(s) && o in s.workers
    ensures Inv(SetWorker(s, o, Stopped(s.workers[o].session)))
  {
    hide SessionsOk, DocumentOk, WorkersOk, LeasesOk;
    SetWorkerKeeps(s, o, Stopped(s.workers[o].session));
  }

  lemma LineageKeeps(s: State, t: State, v: Capture, was: Capture)
    requires LineageOk(s, was) && v.previous == was.previous && v.session == was.session
    requires forall k :: k in s.log ==> k in t.log && (s.log[k] != [] ==> t.log[k] != [])
    ensures LineageOk(t, v)
  {
  }

  // ---------------------------------------------------------------- every run

  lemma ConfirmKeeps(s: State, version: nat, ms: seq<Message>, user: nat, at: int, uuid: nat)
    requires Inv(s) && CanConfirm(s, version, ms, user, at, uuid)
    ensures Inv(DoConfirm(s, version, ms, user, at, uuid))
  {
    hide SessionsOk, DocumentOk, WorkersOk, LeasesOk, ConfirmedBy, Store, Chain, Aligned, Moves, Sound;
    ChainAligned(Seed, ms);
    var value := ConfirmedBy(ValueAt(s, version), ms, user, at, uuid);
    if version == |s.stored| {
      CurrentSound(s);
      ConfirmMoves(ValueAt(s, version), ms, user, at, uuid);
    }
    StoreKeeps(s, version, value, uuid);
  }

  lemma QueueKeeps(s: State, version: nat, target: nat, ms: seq<Message>, user: nat, stop: nat,
                   confirmed: bool, due: int, uuid: nat)
    requires Inv(s) && CanQueue(s, version, target, ms, user, stop, uuid)
    ensures Inv(DoQueue(s, version, target, ms, user, stop, confirmed, due, uuid))
  {
    hide SessionsOk, DocumentOk, WorkersOk, LeasesOk, Advance, Store, Chain, Aligned, Moves, Sound;
    ChainAligned(Seed, ms);
    var was := ValueAt(s, version).value;
    var value := Advance(was, ms, Chain(Seed, ms), user, stop, confirmed, due, uuid).0;
    if version == |s.stored| {
      CurrentSound(s);
      AdvanceMoves(was, ms, user, stop, confirmed, due, uuid);
    }
    StoreKeeps(s, version, value, uuid);
  }

  lemma StepKeeps(s: State, e: Event)
    requires Inv(s) && Enabled(s, e)
    ensures Inv(Step(s, e))
  {
    hide Inv, DoConfirm, DoQueue, Store, DoClaim, DoRead, DoWrite, DoFinish, DoPut, DoSwap, DoRetry, DoFail, DoRelease;
    hide CanConfirm, CanQueue, CanClaim, CanRead, CanWrite, CanFinish, CanPut, CanSwap, CanRetry;
    match e
    case Tick(to) => TickKeeps(s, to);
    case Confirm(version, ms, user, at, uuid) => ConfirmKeeps(s, version, ms, user, at, uuid);
    case ConfirmCut(version, target, ms, user, stop, uuid) =>
      QueueKeeps(s, version, target, ms, user, stop, true, 0, uuid);
    case Stage(version, target, ms, user, due, uuid) =>
      QueueKeeps(s, version, target, ms, user, |ms|, false, due, uuid);
    case ResetCapture(version, uuid) =>
      NewMoves(ValueAt(s, version), uuid);
      StoreKeeps(s, version, NewCapture(uuid, ValueAt(s, version)), uuid);
    case Claim(o) => ClaimKeeps(s, o);
    case Read(o) => ReadKeeps(s, o);
    case Write(o) => WriteKeeps(s, o);
    case Finish(o) => FinishKeeps(s, o);
    case Put(o, change) => PutKeeps(s, o, change);
    case Swap(o) => SwapKeeps(s, o);
    case Retry(o) => RetryKeeps(s, o);
    case Fail(o, failure) => FailKeeps(s, o, failure);
    case Stop(o) => StopKeeps(s, o);
    case Release(o) => ReleaseKeeps(s, o);
  }

  lemma CurrentSound(s: State)
    requires DocumentOk(s)
    ensures ValueAt(s, |s.stored|).Some? ==> Sound(ValueAt(s, |s.stored|).value)
  {
    hide Walk, WholeTurns, Subsequence;
  }

  /** The invariant holds after every run of requests and workers. */
  lemma {:induction false} RunsKeep(s: State, events: seq<Event>)
    requires Inv(s) && Runs(s, events)
    ensures Inv(Outcome(s, events))
    decreases |events|
  {
    hide Inv, Enabled, Step;
    if events != [] {
      StepKeeps(s, events[0]);
      RunsKeep(Step(s, events[0]), events[1..]);
    }
  }

  lemma StartIsSound()
    ensures Inv(Start)
  {
  }

  /** In every run: the current session's recorded messages followed by the queue walk through one
      history from its start. Every message with text is there once, in order; without tool calls
      they are exactly the captured messages of that history. Confirmed segments come first. */
  lemma CapturedInOrder(events: seq<Event>)
    requires Runs(Start, events) && Outcome(Start, events).row.Some?
    ensures var s := Outcome(Start, events);
            var v := s.row.value.value;
            && v.session in s.log
            && var all := s.log[v.session] + Flatten(v.pending);
               var end := End(Seed, all);
               && Walk(Seed, all)
               && TextSources(all) == TextAnchors(end)
               && (ToolFree(end) ==> all == Record(end))
               && QueueOk(v.pending)
  {
    hide Walk, Step, Enabled, WholeTurns, Subsequence;
    StartIsSound();
    RunsKeep(Start, events);
    var s := Outcome(Start, events);
    var v := s.row.value.value;
    var log := s.log[v.session];
    assert log + [] == log;
    WalkConcat(Seed, log, Flatten(v.pending));
    WalkCovers(Seed, log + Flatten(v.pending));
    if ToolFree(End(Seed, log + Flatten(v.pending))) {
      WalkIsRecord(Seed, log + Flatten(v.pending));
    }
  }

  /** How far into its history a request queues. */
  function StopOf(e: Event): nat
    requires e.Confirm? || e.ConfirmCut? || e.Stage?
  {
    if e.Confirm? then e.user else if e.ConfirmCut? then e.stop else |e.ms|
  }

  lemma StoredReaches(s: State, version: nat, value: Capture, ms: seq<Message>, stop: nat)
    requires Inv(s) && version <= |s.stored| && Inv(Store(s, version, value)) && Store(s, version, value) != s
    requires Reaches(End(From(value), Flatten(value.pending)), ms, stop)
    ensures var t := Store(s, version, value);
            && t.row.Some? && t.row.value.value == value && value.session in t.log
            && Reaches(End(Seed, t.log[value.session] + Flatten(value.pending)), ms, stop)
  {
    StoreShape(s, version, value);
    hide Walk, WholeTurns, Subsequence, Store, Reaches, SessionsOk, WorkersOk, LeasesOk;
    var t := Store(s, version, value);
    var log := t.log[value.session];
    assert log + [] == log;
    WalkConcat(Seed, log, Flatten(value.pending));
  }

  /** What `confirm` stores goes through its history at least to the user's message. */
  lemma ConfirmReaches(was: Option<Capture>, ms: seq<Message>, user: nat, at: int, uuid: nat)
    requires was.Some? ==> Sound(was.value)
    requires user < |ms| && IsUser(ms[user]) && Aligned(ms, Chain(Seed, ms))
    ensures var v := ConfirmedBy(was, ms, user, at, uuid); Reaches(End(From(v), Flatten(v.pending)), ms, user)
  {
    hide Advance, Restarts, Chain, Aligned, Position, Walk, QueueOk, Reaches, Flatten;
    var chain := Chain(Seed, ms);
    var found := if was.Some? then was.value else NewCapture(uuid, None);
    var kept := if exists t :: t in found.pending && t.ready <= at && Position(chain, t.anchor) < 0
                then NewCapture(uuid, Some(found)) else found;
    NewMoves(None, uuid);
    NewMoves(Some(found), uuid);
    AdvanceReaches(kept, ms, chain, user, user, true, 0, uuid);
  }

  lemma WonReaches(s: State, e: Event)
    requires Inv(s) && Enabled(s, e) && Inv(Step(s, e)) && (e.Confirm? || e.ConfirmCut? || e.Stage?) && Step(s, e) != s
    ensures var t := Step(s, e);
            && t.row.Some? && t.row.value.value.session in t.log
            && Reaches(End(Seed, t.log[t.row.value.value.session] + Flatten(t.row.value.value.pending)), e.ms, StopOf(e))
  {
    hide Inv, ConfirmedBy, Advance, Store, Chain, Aligned, Sound, Reaches, Flatten, Walk;
    ChainAligned(Seed, e.ms);
    assert DocumentOk(s) && e.version <= |s.stored| by { InvParts(s); }
    CurrentSound(s);
    var value := if e.Confirm? then ConfirmedBy(ValueAt(s, e.version), e.ms, e.user, e.at, e.uuid)
                 else Advance(ValueAt(s, e.version).value, e.ms, Chain(Seed, e.ms), e.user, StopOf(e), e.ConfirmCut?,
                              if e.Stage? then e.due else 0, e.uuid).0;
    StoreShape(s, e.version, value);
    if e.Confirm? {
      ConfirmReaches(ValueAt(s, e.version), e.ms, e.user, e.at, e.uuid);
    } else {
      AdvanceReaches(ValueAt(s, e.version).value, e.ms, Chain(Seed, e.ms), e.user, StopOf(e), e.ConfirmCut?,
                     if e.Stage? then e.due else 0, e.uuid);
    }
    StoredReaches(s, e.version, value, e.ms, StopOf(e));
  }

  lemma InvParts(s: State)
    requires Inv(s)
    ensures DocumentOk(s)
  {
  }

  /** In every run: once a request's confirm, cut or stage is stored, the session's recorded messages and the
      queue go through that request's history, at least to where it queues. */
  lemma RequestIsQueued(events: seq<Event>, e: Event)
    requires Runs(Start, events) && Enabled(Outcome(Start, events), e) && (e.Confirm? || e.ConfirmCut? || e.Stage?)
    requires Step(Outcome(Start, events), e) != Outcome(Start, events)
    ensures var t := Step(Outcome(Start, events), e);
            && t.row.Some? && t.row.value.value.session in t.log
            && Reaches(End(Seed, t.log[t.row.value.value.session] + Flatten(t.row.value.value.pending)), e.ms, StopOf(e))
  {
    hide Inv, Step, Enabled, Runs, Outcome, Reaches, Flatten;
    StartIsSound();
    RunsKeep(Start, events);
    StepKeeps(Outcome(Start, events), e);
    WonReaches(Outcome(Start, events), e);
  }

  /** In every run and every OpenViking session: what is recorded as delivered walks through one
      history, and reached the server in that order. */
  lemma RecordedWasReceived(events: seq<Event>, k: nat)
    requires Runs(Start, events) && k in Outcome(Start, events).log
    ensures var s := Outcome(Start, events);
            && Walk(Seed, s.log[k])
            && k in s.received && Subsequence(s.log[k], s.received[k])
  {
    hide Walk, Step, Enabled, Subsequence, DocumentOk, WorkersOk, LeasesOk;
    StartIsSound();
    RunsKeep(Start, events);
  }

  /** In every run: the retained counts are the whole turns delivered and not archived yet. */
  lemma CommitsCount(events: seq<Event>)
    requires Runs(Start, events) && Outcome(Start, events).row.Some?
    ensures var s := Outcome(Start, events);
            var v := s.row.value.value;
            && v.session in s.log && v.session in s.archived && s.archived[v.session] <= |s.log[v.session]|
            && WholeTurns(v.retained, s.log[v.session][s.archived[v.session]..])
            && SumCounts(v.retained) == |s.log[v.session]| - s.archived[v.session]
  {
    hide Walk, Step, Enabled, Subsequence, Sound, WholeTurns, SumCounts, LineageOk, WorkersOk, LeasesOk;
    StartIsSound();
    RunsKeep(Start, events);
    var s := Outcome(Start, events);
    var v := s.row.value.value;
    assert s.log[v.session] + [] == s.log[v.session];
    WholeCounts(v.retained, s.log[v.session][s.archived[v.session]..]);
  }

  /** In every run: two workers never hold live leases at once. */
  lemma OneLiveLease(events: seq<Event>, a: nat, b: nat)
    requires Runs(Start, events)
    requires var s := Outcome(Start, events); a in s.leases && b in s.leases && a != b
    ensures var s := Outcome(Start, events); s.leases[a] < s.now || s.leases[b] < s.now
  {
    hide Step, Enabled, SessionsOk, DocumentOk, WorkersOk;
    StartIsSound();
    RunsKeep(Start, events);
  }

  /** In every run: a document without an error whose first segment is due can be claimed as soon as
      no lease is on it. */
  lemma DueIsClaimable(events: seq<Event>, o: nat)
    requires Runs(Start, events)
    requires var s := Outcome(Start, events);
             && o !in s.workers && s.row.Some? && s.row.value.lease < s.now
             && var v := s.row.value.value;
                v.error.None? && v.pending != [] && v.pending[0].ready <= s.now
    ensures Enabled(Outcome(Start, events), Claim(o))
  {
    hide Step, SessionsOk, WorkersOk, LeasesOk, Fits, LineageOk;
    StartIsSound();
    RunsKeep(Start, events);
    var s := Outcome(Start, events);
    NeverStranded(s.row.value, s.now);
  }

  /** In every run: the sessions a document names as earlier ones are at most five, all different,
      not the current one, and each holds saved messages. */
  lemma LineageHolds(events: seq<Event>)
    requires Runs(Start, events) && Outcome(Start, events).row.Some?
    ensures LineageOk(Outcome(Start, events), Outcome(Start, events).row.value.value)
  {
    hide Step, Enabled, SessionsOk, WorkersOk, LeasesOk, Fits, LineageOk;
    StartIsSound();
    RunsKeep(Start, events);
  }
}
