/**
 `AsyncSemaphore` in concurrency.py: permits handed from thread to thread through futures, while
 callers may be cancelled at any moment.

 Callers are numbered in the order in which they took the lock inside `acquire`. `futures[i]` is what
 caller i awaits; a caller admitted at once counts as granted. One step is one section under the lock,
 or one change to a future or a task between such sections.
 */
module Semaphore {
  import opened Basics

  datatype Future = Pending | Granted | Cancelled
  datatype Core = Core(value: nat, waiters: seq<nat>, futures: seq<Future>)

  predicate Increasing(s: seq<nat>) {
    forall i, j :: 0 <= i < j < |s| ==> s[i] < s[j]
  }

  /** Every queued caller has a future. */
  predicate Known(c: Core) {
    forall i :: 0 <= i < |c.waiters| ==> c.waiters[i] < |c.futures|
  }

  /** What the lock protects: queued callers, in order of arrival, none of them granted. */
  ghost predicate Sound(c: Core) {
    && Increasing(c.waiters)
    && Known(c)
    && (forall i :: 0 <= i < |c.waiters| ==> c.futures[c.waiters[i]] != Granted)
    && (c.value > 0 ==> c.waiters == [])
  }

  function Admitted(c: Core): Core {
    if c.value > 0 then Core(c.value - 1, c.waiters, c.futures + [Granted])
    else Core(0, c.waiters + [|c.futures|], c.futures + [Pending])
  }

  /** The first position of `x` at or after `from`, or the length. */
  function Find(s: seq<nat>, x: nat, from: nat): (i: nat)
    requires from <= |s|
    ensures from <= i <= |s| && (i < |s| ==> s[i] == x)
    ensures forall j :: from <= j < i ==> s[j] != x
    decreases |s| - from
  {
    if from == |s| || s[from] == x then from else Find(s, x, from + 1)
  }

  function Without(s: seq<nat>, x: nat): seq<nat> {
    var i := Find(s, x, 0);
    if i == |s| then s else s[..i] + s[i + 1..]
  }

  /** Whether a caller that stops waiting holds a permit all the same. */
  predicate GrantedAnyway(c: Core, id: nat)
    requires id < |c.futures|
  {
    id !in c.waiters && c.futures[id] != Cancelled
  }

  /** The first queued caller at or after `from` that was not cancelled, or the end of the queue. */
  function Lapsed(c: Core, from: nat): (k: nat)
    requires Known(c) && from <= |c.waiters|
    ensures from <= k <= |c.waiters| && (k < |c.waiters| ==> c.futures[c.waiters[k]] != Cancelled)
    ensures forall j :: from <= j < k ==> c.futures[c.waiters[j]] == Cancelled
    decreases |c.waiters| - from
  {
    if from < |c.waiters| && c.futures[c.waiters[from]] == Cancelled then Lapsed(c, from + 1) else from
  }

  /** Who gets a permit that is returned: the first caller in the queue that was not cancelled. */
  function Heir(c: Core): Option<nat>
    requires Known(c)
  {
    var k := Lapsed(c, 0);
    if k < |c.waiters| then Some(c.waiters[k]) else None
  }

  function Returned(c: Core): Core
    requires Known(c)
  {
    var k := Lapsed(c, 0);
    if k < |c.waiters|
    then Core(c.value, c.waiters[k + 1..], c.futures[c.waiters[k] := Granted])
    else Core(c.value + 1, [], c.futures)
  }

  class AsyncSemaphore {
    var value: nat
    var waiters: seq<nat>
    var futures: seq<Future>

    ghost function Now(): Core
      reads this
    {
      Core(value, waiters, futures)
    }

    constructor (initial: nat)
      ensures Now() == Core(initial, [], []) && Sound(Now())
    {
      value, waiters, futures := initial, [], [];
    }

    /** The section of `acquire` under the lock: take a permit, or queue a new future. */
    method Enter() returns (id: nat)
      requires Sound(Now())
      modifies this
      ensures id == old(|futures|) && Now() == Admitted(old(Now())) && Sound(Now())
    {
      id := |futures|;
      if value > 0 {
        value, futures := value - 1, futures + [Granted];
      } else {
        waiters, futures := waiters + [id], futures + [Pending];
      }
    }

    /** The section a caller runs when its wait ends in an exception. */
    method Withdraw(id: nat) returns (granted: bool)
      requires Sound(Now()) && id < |futures|
      modifies this`waiters
      ensures granted == GrantedAnyway(old(Now()), id)
      ensures Now() == old(Now()).(waiters := Without(old(waiters), id)) && Sound(Now())
    {
      WithoutSound(Now(), id);
      granted := id !in waiters && futures[id] != Cancelled;
      waiters := Without(waiters, id);
    }

    method Release()
      requires Sound(Now())
      modifies this
      ensures Now() == Returned(old(Now())) && Sound(Now())
    {
      ghost var c := Now();
      ghost var k := 0;
      ReturnedSound(c);
      while waiters != []
        invariant value == c.value && futures == c.futures
        invariant k <= Lapsed(c, 0) && waiters == c.waiters[k..]
        decreases |waiters|
      {
        var waiter := waiters[0];
        waiters := waiters[1..];
        if futures[waiter] == Pending {
          futures := futures[waiter := Granted];
          return;
        }
        k := k + 1;
      }
      value := value + 1;
    }
  }

  lemma IncreasingExtends(s: seq<nat>, x: nat)
    requires Increasing(s) && forall y :: y in s ==> y < x
    ensures Increasing(s + [x])
  {
    assert forall i :: 0 <= i < |s| ==> s[i] in s;
  }

  lemma WithoutSound(c: Core, x: nat)
    requires Sound(c)
    ensures Sound(c.(waiters := Without(c.waiters, x)))
  {
    var i := Find(c.waiters, x, 0);
    if i < |c.waiters| {
      var t := Without(c.waiters, x);
      assert forall j :: 0 <= j < |t| ==> t[j] == c.waiters[if j < i then j else j + 1];
    }
  }

  lemma WithoutLeaves(s: seq<nat>, x: nat)
    requires Increasing(s)
    ensures forall y :: y in Without(s, x) <==> y in s && y != x
  {
    var i := Find(s, x, 0);
    if i < |s| {
      assert s == s[..i] + [x] + s[i + 1..];
      assert forall j :: 0 <= j < |s[..i]| ==> s[..i][j] == s[j] < x;
      assert forall j :: i < j < |s| ==> s[j] > x;
    }
  }

  lemma ReturnedSound(c: Core)
    requires Sound(c)
    ensures Sound(Returned(c))
  {
    hide Lapsed;
    var k := Lapsed(c, 0);
    if k < |c.waiters| {
      assert forall j :: k < j < |c.waiters| ==> c.waiters[k] < c.waiters[j];
    }
  }

  lemma HeirIsGranted(c: Core)
    requires Sound(c)
    ensures Heir(c).None? ==> Returned(c) == Core(c.value + 1, [], c.futures)
    ensures Heir(c).Some? ==> Heir(c).value in c.waiters && Heir(c).value < |c.futures|
    ensures Heir(c).Some? ==> c.futures[Heir(c).value] == Pending && Returned(c).value == c.value
    ensures Heir(c).Some? ==> Returned(c).futures == c.futures[Heir(c).value := Granted]
  {
    hide Lapsed;
  }

  /** Of those queued, only the heir and callers that were cancelled leave, and the heir came first. */
  lemma OthersKeepWaiting(c: Core, w: nat)
    requires Sound(c)
    ensures w in Returned(c).waiters ==> w in c.waiters && (Heir(c).Some? ==> Heir(c).value < w)
    ensures w in c.waiters ==>
              w < |c.futures| && (w in Returned(c).waiters || c.futures[w] == Cancelled || Heir(c) == Some(w))
  {
    hide Lapsed;
    var k := Lapsed(c, 0);
    var t := Returned(c).waiters;
    if w in c.waiters {
      var j :| 0 <= j < |c.waiters| && c.waiters[j] == w;
      if j > k { assert t[j - k - 1] == w; }
    }
    if w in t {
      var j :| 0 <= j < |t| && t[j] == w;
      assert c.waiters[j + k + 1] == w;
    }
  }

  // ---------------------------------------------------------------- callers

  /** Waiting on a future; raised out of the wait; about to give a permit back; holding; finished. */
  datatype Phase = Waiting | Raised | Returning | Holding | Gone

  /** `served` lists the callers that got a permit, in the order in which they got it. */
  datatype State = State(core: Core, phases: seq<Phase>, served: seq<nat>)

  datatype Event =
    | Acquire
    | CancelFuture(id: nat)
    | Raise(id: nat)
    | Resume(id: nat)
    | CleanUp(id: nat)
    | GiveBack(id: nat)
    | Release(id: nat)

  function Start(initial: nat): State {
    State(Core(initial, [], []), [], [])
  }

  predicate Enabled(s: State, e: Event) {
    match e
    case Acquire => true
    case CancelFuture(id) => id < |s.core.futures| && s.core.futures[id] == Pending
    case Raise(id) => id < |s.phases| && s.phases[id] == Waiting
    case Resume(id) => id < |s.phases| == |s.core.futures| && s.phases[id] == Waiting && s.core.futures[id] == Granted
    case CleanUp(id) => id < |s.phases| == |s.core.futures| && s.phases[id] == Raised
    case GiveBack(id) => id < |s.phases| && s.phases[id] == Returning
    case Release(id) => id < |s.phases| && s.phases[id] == Holding
  }

  /** Both ways of giving a permit back run the same `release`. */
  function GivenBack(s: State, id: nat): State
    requires id < |s.phases|
    requires Known(s.core)
  {
    State(Returned(s.core), s.phases[id := Gone],
          if Heir(s.core).Some? then s.served + [Heir(s.core).value] else s.served)
  }

  function Step(s: State, e: Event): State
    requires Enabled(s, e)
    requires Known(s.core)
  {
    match e
    case Acquire =>
      if s.core.value > 0
      then State(Admitted(s.core), s.phases + [Holding], s.served + [|s.core.futures|])
      else State(Admitted(s.core), s.phases + [Waiting], s.served)
    case CancelFuture(id) => s.(core := s.core.(futures := s.core.futures[id := Cancelled]))
    case Raise(id) => s.(phases := s.phases[id := Raised])
    case Resume(id) => s.(phases := s.phases[id := Holding])
    case CleanUp(id) =>
      State(s.core.(waiters := Without(s.core.waiters, id)),
            s.phases[id := if GrantedAnyway(s.core, id) then Returning else Gone], s.served)
    case GiveBack(id) => GivenBack(s, id)
    case Release(id) => GivenBack(s, id)
  }

  /** The permits in a caller's hands, or on their way to it or back from it. */
  function Weight(p: Phase, f: Future): nat {
    if p == Holding || p == Returning || ((p == Waiting || p == Raised) && f == Granted) then 1 else 0
  }

  function Out(phases: seq<Phase>, futures: seq<Future>): nat
    requires |phases| == |futures|
  {
    var n := |phases|;
    if n == 0 then 0
    else Out(phases[..n - 1], futures[..n - 1]) + Weight(phases[n - 1], futures[n - 1])
  }

  lemma {:induction false} OutChange(p: seq<Phase>, f: seq<Future>, i: nat, x: Phase, y: Future)
    requires i < |p| == |f|
    ensures Out(p[i := x], f[i := y]) == Out(p, f) - Weight(p[i], f[i]) + Weight(x, y)
    decreases |p|
  {
    var n := |p| - 1;
    if i == n {
      assert p[i := x][..n] == p[..n] && f[i := y][..n] == f[..n];
    } else {
      OutChange(p[..n], f[..n], i, x, y);
      assert p[i := x][..n] == p[..n][i := x] && f[i := y][..n] == f[..n][i := y];
    }
  }

  function Holders(phases: seq<Phase>): nat {
    var n := |phases|;
    if n == 0 then 0 else Holders(phases[..n - 1]) + if phases[n - 1] == Holding then 1 else 0
  }

  lemma {:induction false} HoldersAreOut(p: seq<Phase>, f: seq<Future>)
    requires |p| == |f|
    ensures Holders(p) <= Out(p, f)
    ensures (forall i :: 0 <= i < |p| ==> p[i] == Gone) ==> Out(p, f) == 0
    decreases |p|
  {
    if p != [] {
      HoldersAreOut(p[..|p| - 1], f[..|p| - 1]);
    }
  }

  ghost predicate PhaseOk(s: State, i: nat)
    requires i < |s.phases| == |s.core.futures|
  {
    && (s.phases[i] == Holding || s.phases[i] == Returning ==> s.core.futures[i] == Granted)
    && (s.core.futures[i] == Granted <==> i in s.served)
    && (i in s.core.waiters ==> s.phases[i] == Waiting || s.phases[i] == Raised)
    && (s.core.futures[i] == Pending && (s.phases[i] == Waiting || s.phases[i] == Raised) ==> i in s.core.waiters)
  }

  ghost predicate Inv(s: State, initial: nat) {
    && |s.phases| == |s.core.futures|
    && Sound(s.core)
    && s.core.value + Out(s.phases, s.core.futures) == initial
    && Increasing(s.served)
    && (forall x, w :: x in s.served && w in s.core.waiters ==> x < w)
    && (forall x :: x in s.served ==> x < |s.phases|)
    && (forall i | 0 <= i < |s.phases| :: PhaseOk(s, i))
  }

  lemma AdmitKeeps(s: State, initial: nat)
    requires Inv(s, initial) && s.core.value > 0
    ensures Inv(Step(s, Acquire), initial)
  {
    var t := Step(s, Acquire);
    var n := |s.phases|;
    IncreasingExtends(s.served, n);
    assert t.phases[..n] == s.phases && t.core.futures[..n] == s.core.futures;
    forall i | 0 <= i < |t.phases| ensures PhaseOk(t, i) {
      if i < n { assert PhaseOk(s, i); }
    }
  }

  lemma QueueKeeps(s: State, initial: nat)
    requires Inv(s, initial) && s.core.value == 0
    ensures Inv(Step(s, Acquire), initial)
  {
    var t := Step(s, Acquire);
    var n := |s.phases|;
    assert t.phases[..n] == s.phases && t.core.futures[..n] == s.core.futures;
    forall i | 0 <= i < |t.phases| ensures PhaseOk(t, i) {
      if i < n { assert PhaseOk(s, i); }
    }
  }

  lemma FutureKeeps(s: State, e: Event, initial: nat)
    requires Inv(s, initial) && Enabled(s, e) && (e.CancelFuture? || e.Raise? || e.Resume?)
    ensures Inv(Step(s, e), initial)
  {
    var t := Step(s, e);
    assert PhaseOk(s, e.id);
    OutChange(s.phases, s.core.futures, e.id, t.phases[e.id], t.core.futures[e.id]);
    assert t.phases == s.phases[e.id := t.phases[e.id]];
    assert t.core.futures == s.core.futures[e.id := t.core.futures[e.id]];
    forall i | 0 <= i < |t.phases| ensures PhaseOk(t, i) {
      assert PhaseOk(s, i);
    }
  }

  lemma CleanUpKeeps(s: State, id: nat, initial: nat)
    requires Inv(s, initial) && Enabled(s, CleanUp(id))
    ensures Inv(Step(s, CleanUp(id)), initial)
  {
    var t := Step(s, CleanUp(id));
    WithoutSound(s.core, id);
    WithoutLeaves(s.core.waiters, id);
    assert PhaseOk(s, id);
    OutChange(s.phases, s.core.futures, id, t.phases[id], s.core.futures[id]);
    assert t.core.futures == s.core.futures[id := s.core.futures[id]];
    forall i | 0 <= i < |t.phases| ensures PhaseOk(t, i) {
      assert PhaseOk(s, i);
    }
  }

  lemma GivenBackPermits(s: State, id: nat, initial: nat)
    requires Inv(s, initial) && id < |s.phases| && (s.phases[id] == Holding || s.phases[id] == Returning)
    ensures var t := GivenBack(s, id); |t.phases| == |t.core.futures| && t.core.value + Out(t.phases, t.core.futures) == initial
  {
    var t := GivenBack(s, id);
    HeirIsGranted(s.core);
    assert PhaseOk(s, id);
    var f := s.core.futures;
    OutChange(s.phases, f, id, Gone, f[id]);
    assert f == f[id := f[id]];
    if Heir(s.core).Some? {
      var w := Heir(s.core).value;
      assert PhaseOk(s, w);
      OutChange(t.phases, f, w, t.phases[w], Granted);
      assert t.phases == t.phases[w := t.phases[w]];
    }
  }

  lemma GivenBackKeeps(s: State, id: nat, initial: nat)
    requires Inv(s, initial) && id < |s.phases| && (s.phases[id] == Holding || s.phases[id] == Returning)
    ensures Inv(GivenBack(s, id), initial)
  {
    hide Out, Returned, Heir, Lapsed;
    var t := GivenBack(s, id);
    GivenBackPermits(s, id, initial);
    ReturnedSound(s.core);
    HeirIsGranted(s.core);
    forall w ensures w in t.core.waiters ==> w in s.core.waiters && (Heir(s.core).Some? ==> Heir(s.core).value < w) {
      OthersKeepWaiting(s.core, w);
    }
    if Heir(s.core).Some? {
      IncreasingExtends(s.served, Heir(s.core).value);
    }
    assert PhaseOk(s, id);
    forall i | 0 <= i < |t.phases| ensures PhaseOk(t, i) {
      assert PhaseOk(s, i);
      OthersKeepWaiting(s.core, i);
    }
  }

  lemma StepKeeps(s: State, e: Event, initial: nat)
    requires Inv(s, initial) && Enabled(s, e)
    ensures Inv(Step(s, e), initial)
  {
    match e
    case Acquire => if s.core.value > 0 { AdmitKeeps(s, initial); } else { QueueKeeps(s, initial); }
    case CancelFuture(id) => FutureKeeps(s, e, initial);
    case Raise(id) => FutureKeeps(s, e, initial);
    case Resume(id) => FutureKeeps(s, e, initial);
    case CleanUp(id) => CleanUpKeeps(s, id, initial);
    case GiveBack(id) => GivenBackKeeps(s, id, initial);
    case Release(id) => GivenBackKeeps(s, id, initial);
  }

  predicate Runs(s: State, events: seq<Event>)
    decreases |events|
  {
    events == [] || (Known(s.core) && Enabled(s, events[0]) && Runs(Step(s, events[0]), events[1..]))
  }

  function Outcome(s: State, events: seq<Event>): State
    requires Runs(s, events)
    decreases |events|
  {
    if events == [] then s else Outcome(Step(s, events[0]), events[1..])
  }

  lemma {:induction false} RunsKeep(s: State, events: seq<Event>, initial: nat)
    requires Inv(s, initial) && Runs(s, events)
    ensures Inv(Outcome(s, events), initial)
    decreases |events|
  {
    hide Inv, Step, Enabled;
    if events != [] {
      StepKeeps(s, events[0], initial);
      RunsKeep(Step(s, events[0]), events[1..], initial);
    }
  }

  /** No permit is lost or made, however cancellations race with grants: what is free, held, granted but
      not yet noticed, or being returned adds up to the initial value, and comes back when all is done. */
  lemma PermitsConserved(initial: nat, events: seq<Event>)
    requires Runs(Start(initial), events)
    ensures var s := Outcome(Start(initial), events); |s.phases| == |s.core.futures|
    ensures var s := Outcome(Start(initial), events); s.core.value + Out(s.phases, s.core.futures) == initial
    ensures var s := Outcome(Start(initial), events); Holders(s.phases) <= initial
    ensures var s := Outcome(Start(initial), events);
            (forall i :: 0 <= i < |s.phases| ==> s.phases[i] == Gone) ==> s.core.value == initial
  {
    hide Step, Enabled, Runs, Outcome;
    assert Inv(Start(initial), initial);
    RunsKeep(Start(initial), events, initial);
    var s := Outcome(Start(initial), events);
    HoldersAreOut(s.phases, s.core.futures);
  }

  /** A free permit means that nobody waits for one. */
  lemma NobodyWaitsForAFreePermit(initial: nat, events: seq<Event>, i: nat)
    requires Runs(Start(initial), events)
    requires i < |Outcome(Start(initial), events).phases| == |Outcome(Start(initial), events).core.futures|
    requires Outcome(Start(initial), events).core.value > 0
    ensures var s := Outcome(Start(initial), events); !(s.phases[i] == Waiting && s.core.futures[i] == Pending)
  {
    hide Step, Enabled, Runs, Outcome;
    assert Inv(Start(initial), initial);
    RunsKeep(Start(initial), events, initial);
    assert PhaseOk(Outcome(Start(initial), events), i);
  }

  /** Permits are given out in order of arrival: a caller is passed over only if its future was cancelled
      or it has stopped waiting. */
  lemma FirstComeFirstServed(initial: nat, events: seq<Event>, i: nat, j: nat)
    requires Runs(Start(initial), events)
    requires i < j && j in Outcome(Start(initial), events).served
    ensures var s := Outcome(Start(initial), events);
            Increasing(s.served) && j < |s.phases| == |s.core.futures| &&
            (i in s.served || s.core.futures[i] == Cancelled || s.phases[i] == Gone)
  {
    hide Step, Enabled, Runs, Outcome;
    assert Inv(Start(initial), initial);
    RunsKeep(Start(initial), events, initial);
    var s := Outcome(Start(initial), events);
    assert PhaseOk(s, i) && PhaseOk(s, j);
  }
}
