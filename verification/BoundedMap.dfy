/**
 `bounded_map` in concurrency.py: a fixed number of tasks take items from one cursor, under any schedule.

 One step is what one task does between two awaits, or what the caller does after joining them.
 `answers` lists what the worker function returned, each value with the item it was called on.
 */
module BoundedMap {
  import opened Basics

  datatype Task = Ready | Running(index: nat) | Failed | Exited

  datatype State<R> = State(items: nat, next: nat, stop: bool, tasks: seq<Task>, results: map<nat, R>,
                            claims: seq<nat>, dropped: set<nat>, answers: seq<(nat, R)>)

  datatype Event<R> =
    | Next(task: nat)
    | Answer(task: nat, value: R)
    | Fail(task: nat)
    | Interrupt(task: nat)
    | Halt

  function Start<R>(items: nat, concurrency: nat): State<R> {
    State(items, 0, false, seq(concurrency, _ => Ready), map[], [], {}, [])
  }

  predicate Enabled<R>(s: State<R>, e: Event<R>) {
    match e
    case Next(w) => w < |s.tasks| && s.tasks[w].Ready?
    case Answer(w, _) => w < |s.tasks| && s.tasks[w].Running?
    case Fail(w) => w < |s.tasks| && s.tasks[w].Running?
    case Interrupt(w) => w < |s.tasks| && s.tasks[w].Ready?
    case Halt => true
  }

  function Step<R>(s: State<R>, e: Event<R>): State<R>
    requires Enabled(s, e)
  {
    match e
    case Next(w) =>
      if s.stop || s.next == s.items then s.(tasks := s.tasks[w := Exited])
      else s.(tasks := s.tasks[w := Running(s.next)], next := s.next + 1, claims := s.claims + [s.next])
    case Answer(w, value) =>
      var i := s.tasks[w].index;
      s.(tasks := s.tasks[w := Ready], results := s.results[i := value], answers := s.answers + [(i, value)])
    case Fail(w) =>
      // The failing call may have been cancelled from outside: either way no further item is claimed.
      s.(tasks := s.tasks[w := Failed], stop := true, dropped := s.dropped + {s.tasks[w].index})
    case Interrupt(w) => s.(tasks := s.tasks[w := Failed])
    case Halt => s.(stop := true)
  }

  predicate Runs<R>(s: State<R>, events: seq<Event<R>>)
    decreases |events|
  {
    events == [] || (Enabled(s, events[0]) && Runs(Step(s, events[0]), events[1..]))
  }

  function Outcome<R>(s: State<R>, events: seq<Event<R>>): State<R>
    requires Runs(s, events)
    decreases |events|
  {
    if events == [] then s else Outcome(Step(s, events[0]), events[1..])
  }

  /** Every task has been joined without a failure, and the caller was not told to stop. */
  predicate Finished<R>(s: State<R>) {
    !s.stop && forall w :: 0 <= w < |s.tasks| ==> s.tasks[w].Exited?
  }

  /** The items claimed that have neither an answer nor a failure. */
  ghost function InFlight<R>(s: State<R>): set<nat> {
    set i: nat | i < s.next && i !in s.results && i !in s.dropped
  }

  /** The tasks run exactly the items in flight, one each. */
  ghost predicate TasksOk<R>(s: State<R>) {
    && (forall w :: 0 <= w < |s.tasks| && s.tasks[w].Running? ==> s.tasks[w].index in InFlight(s))
    && (forall i :: i in InFlight(s) ==> exists w :: 0 <= w < |s.tasks| && s.tasks[w] == Running(i))
    && (forall v, w :: 0 <= v < w < |s.tasks| && s.tasks[v].Running? ==> s.tasks[v] != s.tasks[w])
  }

  ghost predicate Inv<R>(s: State<R>) {
    && s.next <= s.items
    && |s.claims| == s.next
    && (forall i :: 0 <= i < |s.claims| ==> s.claims[i] == i)
    && |s.answers| == |s.results|
    && (forall k :: 0 <= k < |s.answers| ==> s.answers[k].0 in s.results && s.results[s.answers[k].0] == s.answers[k].1)
    && (forall i :: i in s.results || i in s.dropped ==> i < s.next)
    && TasksOk(s)
    && (s.dropped != {} ==> s.stop)
    && ((exists w :: 0 <= w < |s.tasks| && s.tasks[w].Exited?) ==> s.stop || s.next == s.items)
  }

  lemma TasksStay<R>(s: State<R>, e: Event<R>)
    requires Inv(s) && Enabled(s, e)
    ensures TasksOk(Step(s, e))
  {
    var t := Step(s, e);
    forall i | i in InFlight(t) ensures exists w :: 0 <= w < |t.tasks| && t.tasks[w] == Running(i) {
      if i in InFlight(s) {
        var w :| 0 <= w < |s.tasks| && s.tasks[w] == Running(i);
        assert t.tasks[w] == Running(i);
      } else {
        assert t.tasks[e.task] == Running(i);
      }
    }
  }

  lemma StepKeeps<R>(s: State<R>, e: Event<R>)
    requires Inv(s) && Enabled(s, e)
    ensures Inv(Step(s, e))
  {
    TasksStay(s, e);
    if e.Answer? {
      assert s.tasks[e.task].index in InFlight(s);
    }
    hide TasksOk;
  }

  lemma {:induction false} RunsKeep<R>(s: State<R>, events: seq<Event<R>>)
    requires Inv(s) && Runs(s, events)
    ensures Inv(Outcome(s, events))
    ensures |Outcome(s, events).tasks| == |s.tasks| && Outcome(s, events).items == s.items
    decreases |events|
  {
    hide Inv;
    if events != [] {
      StepKeeps(s, events[0]);
      RunsKeep(Step(s, events[0]), events[1..]);
    }
  }

  function RunningIn(tasks: seq<Task>): (r: set<nat>)
    ensures |r| <= |tasks|
    ensures forall w :: 0 <= w < |tasks| && tasks[w].Running? ==> tasks[w].index in r
  {
    var n := |tasks|;
    if n == 0 then {}
    else
      var before := RunningIn(tasks[..n - 1]);
      if tasks[n - 1].Running? then before + {tasks[n - 1].index} else before
  }

  lemma SubsetIsSmaller(a: set<nat>, b: set<nat>)
    requires a <= b
    ensures |a| <= |b|
  {
    assert b == a + (b - a);
  }

  /** Under every schedule: items are claimed once each, in input order and without a gap, and no more
      than `concurrency` of them are in flight. */
  lemma ClaimsAreAPrefix<R>(items: nat, concurrency: nat, events: seq<Event<R>>)
    requires Runs(Start(items, concurrency), events)
    ensures var s := Outcome(Start<R>(items, concurrency), events);
            |s.claims| <= items && forall i :: 0 <= i < |s.claims| ==> s.claims[i] == i
    ensures |InFlight(Outcome(Start<R>(items, concurrency), events))| <= concurrency
  {
    hide Runs, Outcome, Step, Enabled;
    var start := Start<R>(items, concurrency);
    assert Inv(start);
    RunsKeep(start, events);
    var s := Outcome(start, events);
    var running := RunningIn(s.tasks);
    forall i | i in InFlight(s) ensures i in running {
      var w :| 0 <= w < |s.tasks| && s.tasks[w] == Running(i);
    }
    SubsetIsSmaller(InFlight(s), running);
  }

  /** Once a failure (or the caller) has set `stop`, no schedule claims another item. */
  lemma {:induction false} NothingClaimedAfterStop<R>(s: State<R>, events: seq<Event<R>>)
    requires s.stop && Runs(s, events)
    ensures Outcome(s, events).stop && Outcome(s, events).claims == s.claims
    decreases |events|
  {
    if events != [] {
      NothingClaimedAfterStop(Step(s, events[0]), events[1..]);
    }
  }

  /** In particular, a failed call ends it: whatever the other tasks do, nothing more is claimed. */
  lemma NothingClaimedAfterFailure<R>(s: State<R>, w: nat, later: seq<Event<R>>)
    requires Enabled(s, Fail(w)) && Runs(Step(s, Fail(w)), later)
    ensures Outcome(Step(s, Fail(w)), later).claims == s.claims
  {
    hide Runs, Outcome;
    NothingClaimedAfterStop(Step(s, Fail(w)), later);
  }

  /** What the caller returns: the results by increasing index. */
  method Collect<R>(s: State<R>) returns (list: seq<R>)
    requires forall i :: 0 <= i < |s.results| ==> i in s.results
    ensures |list| == |s.results| && forall i :: 0 <= i < |list| ==> list[i] == s.results[i]
  {
    list := [];
    for index := 0 to |s.results|
      invariant |list| == index && forall i :: 0 <= i < index ==> list[i] == s.results[i]
    {
      list := list + [s.results[index]];
    }
  }

  lemma {:induction false} FirstNumbers(s: set<nat>, n: nat)
    requires forall i: nat :: i in s <==> i < n
    ensures |s| == n
    decreases n
  {
    if n > 0 {
      FirstNumbers(s - {n - 1}, n - 1);
    } else {
      assert s == {};
    }
  }

  /** A call that returns normally has exactly one answer for every item, and its result for an item is
      what the worker function returned for it. */
  lemma ReturnsEveryAnswerInOrder<R>(items: nat, concurrency: nat, events: seq<Event<R>>)
    requires concurrency > 0 && Runs(Start(items, concurrency), events)
    requires Finished(Outcome(Start<R>(items, concurrency), events))
    ensures var s := Outcome(Start<R>(items, concurrency), events);
            && |s.answers| == |s.results| == items
            && (forall i :: 0 <= i < items ==> i in s.results)
            && (forall k :: 0 <= k < items ==> s.answers[k].0 in s.results && s.results[s.answers[k].0] == s.answers[k].1)
  {
    hide Runs, Outcome, Step, Enabled;
    var start := Start<R>(items, concurrency);
    assert Inv(start);
    RunsKeep(start, events);
    var s := Outcome(start, events);
    assert s.tasks[0].Exited?;
    forall i: nat | i < items ensures i in s.results {
      assert i in InFlight(s) || i in s.results;
    }
    FirstNumbers(s.results.Keys, items);
  }
}
