/**
 Tool receipts (`ToolExecutor.execute` in tool_executor.py): executions that share a history and a
 call share one receipt, a document claimed by inserting it and completed by one more swap.

 An event is one atomic step of one execution; any execution may stop for good at any point. Owners
 are UUIDs, so two executions never share one. The receipt does not expire during a run.
 */
module ToolReceipts {
  import opened Basics
  import opened Stores

  datatype Answer = Answer(content: string, failed: bool)
  /** The receipt: its claim, and the outcome once there is one. */
  datatype Receipt = Receipt(owner: nat, outcome: Option<Answer>)

  const UNKNOWN_OUTCOME := "Tool timed out or a previous attempt has an unknown outcome; inspect state before retrying writes"
  const OPERATION_FAILED := "Invalid tool arguments or OpenViking operation failed"

  /** Where an execution stands: about to claim; owning the receipt; calling; back from the call;
      about to store a failure; having lost the claim; waiting for the owner's outcome; answered. */
  datatype Execution =
    | Idle
    | Owning
    | Calling
    | Returned(got: Answer)
    | Failing(content: string)
    | Lost
    | Waiting
    | Answered(answer: Answer)

  /** `started` lists the executions that started the call, `outcomes` the outcomes stored. */
  datatype State = State(receipt: Versioned<Receipt>, executions: map<nat, Execution>,
                         started: seq<nat>, outcomes: seq<Answer>)

  datatype Event =
    | Arrive(id: nat)
    | Claim(id: nat)
    | BadArguments(id: nat)
    | Call(id: nat)
    | Return(id: nat, answer: Answer)
    | Break(id: nat, timeout: bool)
    | Complete(id: nat)
    | LateTimeout(id: nat, stored: bool)
    | Fail(id: nat)
    | Look(id: nat)
    | Poll(id: nat)
    | GiveUp(id: nat)

  const Start: State := State(Versioned(None, 0), map[], [], [])

  predicate At(s: State, id: nat, phase: Execution -> bool) {
    id in s.executions && phase(s.executions[id])
  }

  predicate Enabled(s: State, e: Event) {
    match e
    case Arrive(id) => id !in s.executions
    case Claim(id) => At(s, id, (x: Execution) => x.Idle?)
    case BadArguments(id) => At(s, id, (x: Execution) => x.Owning?)
    case Call(id) => At(s, id, (x: Execution) => x.Owning?)
    case Return(id, _) => At(s, id, (x: Execution) => x.Calling?)
    case Break(id, _) => At(s, id, (x: Execution) => x.Calling?)
    case Complete(id) => At(s, id, (x: Execution) => x.Returned?)
    case LateTimeout(id, _) => At(s, id, (x: Execution) => x.Returned?)
    case Fail(id) => At(s, id, (x: Execution) => x.Failing?)
    case Look(id) => At(s, id, (x: Execution) => x.Lost?)
    case Poll(id) => At(s, id, (x: Execution) => x.Waiting?)
    case GiveUp(id) => At(s, id, (x: Execution) => x.Waiting?)
  }

  function Set(s: State, id: nat, x: Execution): State {
    s.(executions := s.executions[id := x])
  }

  /** The owner's swap against the version it wrote: it stores the outcome unless one is there. */
  function Store(s: State, id: nat, outcome: Answer): State {
    var next := Cas(s.receipt, 1, Receipt(id, Some(outcome)));
    s.(receipt := next, outcomes := if next == s.receipt then s.outcomes else s.outcomes + [outcome])
  }

  function Step(s: State, e: Event): State
    requires Enabled(s, e)
  {
    match e
    case Arrive(id) => Set(s, id, Idle)
    case Claim(id) =>
      // The claim is an insert: it changes the document exactly when there was none.
      var next := Cas(s.receipt, 0, Receipt(id, None));
      Set(s, id, if next != s.receipt then Owning else Lost).(receipt := next)
    case BadArguments(id) => Set(s, id, Failing(OPERATION_FAILED))
    case Call(id) => Set(s, id, Calling).(started := s.started + [id])
    case Return(id, answer) => Set(s, id, Returned(answer))
    case Break(id, timeout) => Set(s, id, Failing(if timeout then UNKNOWN_OUTCOME else OPERATION_FAILED))
    case Complete(id) => Set(Store(s, id, s.executions[id].got), id, Answered(s.executions[id].got))
    case LateTimeout(id, stored) =>
      // The deadline passes while the outcome is being stored: the store may have happened already.
      Set(if stored then Store(s, id, s.executions[id].got) else s, id, Failing(UNKNOWN_OUTCOME))
    case Fail(id) =>
      var content := s.executions[id].content;
      Set(Store(s, id, Answer(content, true)), id, Answered(Answer(content, true)))
    case Look(id) =>
      Set(s, id, if s.receipt.value.None? then Answered(Answer(UNKNOWN_OUTCOME, true)) else Waiting)
    case Poll(id) =>
      if s.receipt.value.None? then Set(s, id, Answered(Answer(UNKNOWN_OUTCOME, true)))
      else if s.receipt.value.value.outcome.None? then s
      else Set(s, id, Answered(s.receipt.value.value.outcome.value))
    case GiveUp(id) => Set(s, id, Answered(Answer(UNKNOWN_OUTCOME, true)))
  }

  predicate Runs(s: State, events: seq<Event>)
    decreases |events|
  {
    events == [] || (Enabled(s, events[0]) && Runs(Step(s, events[0]), events[1..]))
  }

  function Outcome(s: State, events: seq<Event>): State
    requires Runs(s, events)
    decreases |events|
  {
    if events == [] then s else Outcome(Step(s, events[0]), events[1..])
  }

  /** The execution whose claim was inserted. */
  ghost predicate Owner(s: State, id: nat) {
    s.receipt.value.Some? && s.receipt.value.value.owner == id
  }

  /** What each phase knows. */
  ghost predicate PhaseOk(s: State, id: nat) {
    id in s.executions ==>
      match s.executions[id]
      case Idle => !Owner(s, id)
      case Owning => Owner(s, id) && s.receipt.version == 1 && s.started == []
      case Calling => Owner(s, id) && s.receipt.version == 1 && s.started == [id]
      case Returned(_) => Owner(s, id) && s.receipt.version == 1 && s.started == [id]
      case Failing(_) => Owner(s, id)
      case Lost => !Owner(s, id) && s.receipt.value.Some?
      case Waiting => !Owner(s, id) && s.receipt.value.Some?
      case Answered(a) => a.failed || (s.receipt.value.Some? && s.receipt.value.value.outcome == Some(a))
  }

  ghost predicate Inv(s: State) {
    && s.receipt.version <= 2
    && (s.receipt.version == 0 <==> s.receipt.value.None?)
    && (s.receipt.version == 0 ==> s.started == [] && s.outcomes == [])
    && (s.receipt.version == 1 ==> s.receipt.value.value.outcome.None? && s.outcomes == [])
    && (s.receipt.version == 2 ==> s.receipt.value.value.outcome.Some? && s.outcomes == [s.receipt.value.value.outcome.value])
    && |s.started| <= 1
    && (forall id :: id in s.started ==> Owner(s, id))
    && (s.receipt.value.Some? ==> s.receipt.value.value.owner in s.executions)
    && forall id :: PhaseOk(s, id)
  }

  lemma StepKeeps(s: State, e: Event)
    requires Inv(s) && Enabled(s, e)
    ensures Inv(Step(s, e))
  {
    var t := Step(s, e);
    assert PhaseOk(s, e.id);
    forall id ensures PhaseOk(t, id) {
      assert PhaseOk(s, id);
    }
  }

  lemma {:induction false} RunsKeep(s: State, events: seq<Event>)
    requires Inv(s) && Runs(s, events)
    ensures Inv(Outcome(s, events))
    decreases |events|
  {
    hide Inv, Step, Enabled;
    if events != [] {
      StepKeeps(s, events[0]);
      RunsKeep(Step(s, events[0]), events[1..]);
    }
  }

  /** In every run of concurrent, repeated and abandoned executions: the call starts at most once, at
      most one outcome is stored, and every answer that is not a failure is the stored outcome. */
  lemma AtMostOnce(events: seq<Event>)
    requires Runs(Start, events)
    ensures var s := Outcome(Start, events);
            && |s.started| <= 1 && |s.outcomes| <= 1
            && forall id :: id in s.executions && s.executions[id].Answered? && !s.executions[id].answer.failed ==>
                 s.outcomes == [s.executions[id].answer]
  {
    hide Step, Enabled, Runs, Outcome;
    assert Inv(Start);
    RunsKeep(Start, events);
    var s := Outcome(Start, events);
    forall id | id in s.executions && s.executions[id].Answered? && !s.executions[id].answer.failed
      ensures s.outcomes == [s.executions[id].answer]
    {
      assert PhaseOk(s, id);
    }
  }

  // ---------------------------------------------------------------- where answers come from

  lemma {:induction false} RunsBefore(s: State, events: seq<Event>, e: Event)
    requires Runs(s, events + [e])
    ensures Runs(s, events) && Enabled(Outcome(s, events), e) && Outcome(s, events + [e]) == Step(Outcome(s, events), e)
    decreases |events|
  {
    hide Enabled, Step;
    if events == [] {
      assert (events + [e])[0] == e && (events + [e])[1..] == [];
    } else {
      assert (events + [e])[1..] == events[1..] + [e] && (events + [e])[0] == events[0];
      RunsBefore(Step(s, events[0]), events[1..], e);
    }
  }

  /** What the executor says of a failure, and after which step. */
  predicate Prescribed(events: seq<Event>, id: nat, content: string) {
    || (content == UNKNOWN_OUTCOME && (Break(id, true) in events || LateTimeout(id, true) in events || LateTimeout(id, false) in events))
    || (content == OPERATION_FAILED && (BadArguments(id) in events || Break(id, false) in events))
  }

  /** An outcome the owner stored: what the call returned, or a prescribed failure. */
  predicate Sourced(events: seq<Event>, id: nat, a: Answer) {
    || (Return(id, a) in events && (Complete(id) in events || LateTimeout(id, true) in events))
    || (a.failed && Fail(id) in events && Prescribed(events, id, a.content))
  }

  /** How an execution got where it is. */
  ghost predicate Told(events: seq<Event>, s: State, id: nat) {
    && (Complete(id) in events ==>
          && id in s.executions && s.executions[id].Answered?
          && s.outcomes == [s.executions[id].answer] && Return(id, s.executions[id].answer) in events)
    && (LateTimeout(id, true) in events ==> s.outcomes != [] && Return(id, s.outcomes[0]) in events)
    && (id in s.executions ==>
          match s.executions[id]
          case Returned(a) => Return(id, a) in events
          case Failing(content) =>
            && Prescribed(events, id, content)
            && (s.outcomes != [] ==> content == UNKNOWN_OUTCOME && LateTimeout(id, true) in events)
          case Answered(a) =>
            || s.outcomes == [a]
            || (a == Answer(UNKNOWN_OUTCOME, true) && (GiveUp(id) in events || LateTimeout(id, true) in events))
          case _ => true)
  }

  ghost predicate Record(events: seq<Event>, s: State) {
    && (forall id :: Told(events, s, id))
    && (s.outcomes != [] ==> s.receipt.value.Some? && Sourced(events, s.receipt.value.value.owner, s.outcomes[0]))
  }

  lemma SourcedStays(events: seq<Event>, e: Event, id: nat, a: Answer)
    requires Sourced(events, id, a)
    ensures Sourced(events + [e], id, a)
  {
  }

  /** The step's own execution. */
  lemma ToldActor(events: seq<Event>, s: State, e: Event)
    requires Inv(s) && Enabled(s, e) && Told(events, s, e.id)
    ensures Told(events + [e], Step(s, e), e.id)
  {
    assert PhaseOk(s, e.id);
    assert forall d :: d in events ==> d in events + [e];
    assert e in events + [e];
  }

  /** The others': a stored outcome is theirs too, and there is only one. */
  lemma ToldOthers(events: seq<Event>, s: State, e: Event, id: nat)
    requires Inv(s) && Enabled(s, e) && Told(events, s, id) && id != e.id
    ensures Told(events + [e], Step(s, e), id)
  {
    assert PhaseOk(s, e.id) && PhaseOk(s, id);
    assert forall d :: d in events ==> d in events + [e];
  }

  lemma OutcomeSourced(events: seq<Event>, s: State, e: Event)
    requires Inv(s) && Enabled(s, e) && Record(events, s) && Step(s, e).outcomes != []
    ensures var t := Step(s, e);
            t.receipt.value.Some? && Sourced(events + [e], t.receipt.value.value.owner, t.outcomes[0])
  {
    hide Told;
    assert PhaseOk(s, e.id);
    if s.outcomes != [] {
      SourcedStays(events, e, s.receipt.value.value.owner, s.outcomes[0]);
    } else {
      ToldGot(events, s, e.id);
      assert forall d :: d in events ==> d in events + [e];
      assert e in events + [e];
    }
  }

  lemma ToldGot(events: seq<Event>, s: State, id: nat)
    requires Told(events, s, id)
    ensures id in s.executions && s.executions[id].Returned? ==> Return(id, s.executions[id].got) in events
    ensures id in s.executions && s.executions[id].Failing? ==> Prescribed(events, id, s.executions[id].content)
  {
  }

  lemma {:induction false} RunsRecord(events: seq<Event>)
    requires Runs(Start, events)
    ensures Inv(Outcome(Start, events)) && Record(events, Outcome(Start, events))
    decreases |events|
  {
    hide Inv, Step, Enabled, Told, Sourced;
    assert Inv(Start) by { StartIsSound(); }
    if events == [] {
      forall id ensures Told([], Start, id) {
        NothingTold(id);
      }
    } else {
      var before, e := events[..|events| - 1], Last(events);
      assert events == before + [e];
      RunsBefore(Start, before, e);
      RunsRecord(before);
      var s := Outcome(Start, before);
      StepKeeps(s, e);
      forall id ensures Told(events, Step(s, e), id) {
        if id == e.id {
          ToldActor(before, s, e);
        } else {
          ToldOthers(before, s, e, id);
        }
      }
      if Step(s, e).outcomes != [] {
        OutcomeSourced(before, s, e);
      }
    }
  }

  lemma StartIsSound()
    ensures Inv(Start)
  {
  }

  lemma NothingTold(id: nat)
    ensures Told([], Start, id)
  {
  }

  /** In every run: an execution that completed answers exactly what its call returned, and that is the stored
      outcome, success or failure. */
  lemma CompletionsAnswer(events: seq<Event>, id: nat) returns (a: Answer)
    requires Runs(Start, events) && Complete(id) in events
    ensures var s := Outcome(Start, events);
            Return(id, a) in events && id in s.executions && s.executions[id] == Answered(a) && s.outcomes == [a]
  {
    hide Inv, Step, Enabled, Runs, Outcome;
    RunsRecord(events);
    var s := Outcome(Start, events);
    assert Told(events, s, id);
    a := s.executions[id].answer;
  }

  /** In every run: an answer is the stored outcome, failed or not. It differs only for an execution that gave up
      waiting, or whose deadline passed as its outcome was being stored, and then says the outcome is unknown. */
  lemma AnswersAreOutcomes(events: seq<Event>, id: nat)
    requires Runs(Start, events)
    requires var s := Outcome(Start, events); id in s.executions && s.executions[id].Answered?
    ensures var s := Outcome(Start, events);
            || s.outcomes == [s.executions[id].answer]
            || (&& s.executions[id].answer == Answer(UNKNOWN_OUTCOME, true)
                && (GiveUp(id) in events || LateTimeout(id, true) in events))
  {
    hide Inv, Step, Enabled, Runs, Outcome;
    RunsRecord(events);
    assert Told(events, Outcome(Start, events), id);
  }

  /** In every run: the stored outcome is what the one call returned, or the text prescribed for what went wrong:
      unknown after a timeout, failed after bad arguments or an error. */
  lemma OutcomesAreSourced(events: seq<Event>) returns (owner: nat)
    requires Runs(Start, events) && Outcome(Start, events).outcomes != []
    ensures var a := Outcome(Start, events).outcomes[0];
            || (Return(owner, a) in events && (Complete(owner) in events || LateTimeout(owner, true) in events))
            || (a == Answer(UNKNOWN_OUTCOME, true) && Fail(owner) in events &&
                (Break(owner, true) in events || LateTimeout(owner, true) in events || LateTimeout(owner, false) in events))
            || (a == Answer(OPERATION_FAILED, true) && Fail(owner) in events &&
                (BadArguments(owner) in events || Break(owner, false) in events))
  {
    hide Inv, Step, Enabled, Runs, Outcome;
    RunsRecord(events);
    owner := Outcome(Start, events).receipt.value.value.owner;
  }

  /** In every run: an outcome stored as its deadline passed is what the call returned, and stays, although the
      execution itself answers that it is unknown. */
  lemma LateOutcomesStay(events: seq<Event>, id: nat)
    requires Runs(Start, events) && LateTimeout(id, true) in events
    ensures var s := Outcome(Start, events); |s.outcomes| == 1 && Return(id, s.outcomes[0]) in events
  {
    hide Inv, Step, Enabled, Runs, Outcome;
    RunsRecord(events);
    AtMostOnce(events);
    assert Told(events, Outcome(Start, events), id);
  }

  /** In every run: an execution that lost the claim finds the receipt, and its polls answer the stored outcome,
      failed or not, as soon as there is one. */
  lemma PollsAnswer(events: seq<Event>, s: State, id: nat)
    requires Runs(Start, events) && s == Outcome(Start, events)
    ensures Enabled(s, Look(id)) ==> Step(s, Look(id)).executions[id].Waiting?
    ensures Enabled(s, Poll(id)) ==>
              if s.outcomes == [] then Step(s, Poll(id)) == s
              else Step(s, Poll(id)).executions[id] == Answered(s.outcomes[0])
  {
    hide Runs, Outcome, Record;
    RunsRecord(events);
    assert PhaseOk(s, id);
  }
}
