/**
 A run of the capture protocol in which a captured message is never written: its result arrives while a
 later reply is being sent, and the merge drops it with that reply.
 */
module CaptureLoss {
  import opened Basics
  import opened Anchors
  import opened CaptureTurns
  import opened CaptureOrder
  import opened CaptureWorker
  import opened CaptureQueue
  import opened CaptureProtocol

  const Asked: Message := Said(User, false, "Fix the build", [], [])
  const Called: Message := Said(Assistant, false, "", [Call("call-0", "run", "{}")], [])
  const Replied: Message := Said(Assistant, false, "Working on it", [], [])
  const Result: Message := Said(Tool, false, "", [], [Answer("call-0", "output 0")])

  const AskedAt: Anchor := Link(Seed, Asked)
  const CalledAt: Anchor := Link(AskedAt, Called)
  const RepliedAt: Anchor := Link(CalledAt, Replied)
  const ResultAt: Anchor := Link(RepliedAt, Result)

  const AskedOnce: Captured := Captured(User, "Fix the build", [], AskedAt)
  const CalledOnce: Captured := Captured(Assistant, "", [ToolPart("call-0", "run", "{}", "output 0")], CalledAt)
  const RepliedOnce: Captured := Captured(Assistant, "Working on it", [], RepliedAt)

  const Early: seq<Message> := [Asked, Called, Replied]
  const Late: seq<Message> := [Asked, Called, Replied, Result]

  /** The chains of the three histories. */
  lemma Chains()
    ensures Chain(Seed, [Asked]) == [Some(AskedAt)]
    ensures Chain(Seed, Early) == [Some(AskedAt), Some(CalledAt), Some(RepliedAt)]
    ensures Chain(Seed, Late) == [Some(AskedAt), Some(CalledAt), Some(RepliedAt), Some(ResultAt)]
  {
    assert [Asked][1..] == [] && Early[1..] == [Called, Replied] && Late[1..] == [Called, Replied, Result];
    assert [Called, Replied][1..] == [Replied] && [Called, Replied, Result][1..] == [Replied, Result];
    assert [Replied][1..] == [] && [Replied, Result][1..] == [Result] && [Result][1..] == [];
    assert Chain(CalledAt, [Replied]) == [Some(RepliedAt)];
    assert Chain(RepliedAt, [Result]) == [Some(ResultAt)];
    assert Chain(CalledAt, [Replied, Result]) == [Some(RepliedAt), Some(ResultAt)];
    assert Chain(AskedAt, [Called, Replied]) == [Some(CalledAt), Some(RepliedAt)];
    assert Chain(AskedAt, [Called, Replied, Result]) == [Some(CalledAt), Some(RepliedAt), Some(ResultAt)];
  }

  /** Without its result, the call is not captured. */
  lemma FirstCapture()
    ensures CaptureTurns.Aligned(Early, Chain(Seed, Early)) && Segment(Early, Chain(Seed, Early), 0, 3) == [AskedOnce, RepliedOnce]
  {
    var ms, chain := Early, Chain(Seed, Early);
    Chains();
    ChainAligned(Seed, Early);
    hide Chain;
    assert Results(ms, 0, 3) == Results(ms, 0, 2) == Results(ms, 0, 1) == map[];
    assert CaptureRange(ms, chain, 0, 1, map[]) == [AskedOnce];
    assert ToolsOf(Called.calls, map[]) == ToolsOf(Called.calls[..0], map[]) == [];
    assert CaptureRange(ms, chain, 0, 2, map[]) == [AskedOnce];
  }

  /** With its result, it is. */
  lemma LaterCapture()
    ensures CaptureTurns.Aligned(Late, Chain(Seed, Late)) && Segment(Late, Chain(Seed, Late), 0, 4) == [AskedOnce, CalledOnce, RepliedOnce]
  {
    var ms, chain := Late, Chain(Seed, Late);
    Chains();
    ChainAligned(Seed, Late);
    hide Chain;
    var answered := map["call-0" := "output 0"];
    assert Results(ms, 0, 4) == answered by {
      assert Results(ms, 0, 3) == Results(ms, 0, 2) == Results(ms, 0, 1) == map[];
      assert Result.answers[..0] == [];
    }
    assert CaptureRange(ms, chain, 0, 1, answered) == [AskedOnce];
    assert ToolsOf(Called.calls, answered) == CalledOnce.tools by {
      assert ToolsOf(Called.calls[..0], answered) == [];
    }
    assert CaptureRange(ms, chain, 0, 2, answered) == [AskedOnce, CalledOnce];
    assert CaptureRange(ms, chain, 0, 3, answered) == [AskedOnce, CalledOnce, RepliedOnce];
  }

  const EarlyTurn: Turn := Turn(RepliedAt, [AskedOnce, RepliedOnce], false, false, 0)
  const LateTurn: Turn := Turn(RepliedAt, [AskedOnce, CalledOnce, RepliedOnce], false, false, 0)

  /** The merge finds the reply and drops the call with it. */
  lemma LateResultIsDropped()
    ensures Remaining([LateTurn], RepliedOnce) == Some([])
  {
    var all := LateTurn.messages;
    assert all[1] == CalledOnce && all[2] == RepliedOnce;
    assert After(all, RepliedOnce) == After(all[1..], RepliedOnce) == After(all[1..][1..], RepliedOnce) == [];
    assert Trimmed(LateTurn, RepliedOnce) + [LateTurn][1..] == [];
  }

  // ---------------------------------------------------------------- the documents

  const Opened: Capture := Capture(1, None, [], [], None, None, false, [], Some(AskedAt))
  const Staged: Capture := Opened.(pending := [EarlyTurn])
  const Restaged: Capture := Opened.(pending := [LateTurn])
  const Saved: Capture :=
    Capture(1, Some(RepliedAt), [], [Retained(RepliedAt, 2)], None, None, true, [], Some(AskedAt))

  lemma ConfirmOpens()
    ensures CaptureTurns.Aligned([Asked], Chain(Seed, [Asked])) && ConfirmedBy(None, [Asked], 0, 0, 1) == Opened
  {
    Chains();
    ChainAligned(Seed, [Asked]);
    hide Chain;
    var blank := NewCapture(1, None);
    assert Advance(blank, [Asked], Chain(Seed, [Asked]), 0, 0, true, 0, 1).0 == blank;
  }

  function WholeTurn(ms: seq<Message>, chain: seq<Option<Anchor>>): Turn
    requires CaptureTurns.Aligned(ms, chain) && Segment(ms, chain, 0, |ms|) != []
  {
    Turn(Last(Segment(ms, chain, 0, |ms|)).source, Segment(ms, chain, 0, |ms|), false, false, 0)
  }

  lemma OneTurn(ms: seq<Message>, chain: seq<Option<Anchor>>)
    requires CaptureTurns.Aligned(ms, chain) && ms != [] && (forall k :: 0 < k < |ms| ==> !IsUser(ms[k])) && IsUser(ms[0])
    requires Segment(ms, chain, 0, |ms|) != []
    ensures Turns(ms, chain, 0, |ms|, false, 0) == [WholeTurn(ms, chain)]
  {
    var next := NextUser(ms, 1, |ms|);
    assert next == |ms|;
    NoTurns(ms, chain, |ms|, |ms|, false, 0);
    var turn := WholeTurn(ms, chain);
    hide Segment, CaptureTurns.Aligned, IsUser, NextUser;
    assert [turn] + [] == [turn];
  }

  /** Staging a history of one turn replaces an unconfirmed queue by that turn. */
  lemma StageQueues(ms: seq<Message>, chain: seq<Option<Anchor>>, v: Capture, uuid: nat)
    requires CaptureTurns.Aligned(ms, chain) && ms != [] && (forall k :: 0 < k < |ms| ==> !IsUser(ms[k])) && IsUser(ms[0])
    requires v.delivered.None? && Confirmed(v.pending) == [] && Segment(ms, chain, 0, |ms|) != []
    ensures var turn := WholeTurn(ms, chain);
            Advance(v, ms, chain, 0, |ms|, false, 0, uuid) == (v.(pending := [turn]), [turn])
  {
    EmptyQueue(chain);
    OneTurn(ms, chain);
    NoTurns(ms, chain, 0, 0, true, 0);
    hide Segment, CaptureTurns.Aligned, IsUser, Confirmed, Turns, Reach, Known, Position, WholeTurn;
    var turn := WholeTurn(ms, chain);
    assert [] + [turn] == [turn];
  }

  /** A stage on the current document stores its queue as the next version. */
  lemma StageStores(s: State, version: nat, ms: seq<Message>, v: Capture, turn: Turn)
    requires CanQueue(s, version, v.session, ms, 0, |ms|, 2) && CaptureTurns.Aligned(ms, Chain(Seed, ms))
    requires version == |s.stored| > 0 && Last(s.stored) == v && v.session in s.log
    requires s.row.Some? && s.row.value.version == version
    requires Advance(v, ms, Chain(Seed, ms), 0, |ms|, false, 0, 2) == (v.(pending := [turn]), [turn])
    ensures var w := v.(pending := [turn]);
            DoQueue(s, version, v.session, ms, 0, |ms|, false, 0, 2)
            == s.(row := Some(s.row.value.(value := w, version := version + 1, ready := ReadyAt(w))), stored := s.stored + [w])
  {
    hide Chain, Advance, CaptureTurns.Aligned;
  }

  // ---------------------------------------------------------------- the run

  const Written: seq<Captured> := [AskedOnce, RepliedOnce]

  /** One session, at time 1 once a worker has claimed its document. */
  function At(now: int, row: Row, stored: seq<Capture>, log: seq<Captured>, received: seq<Captured>, workers: map<nat, Worker>,
              leases: map<nat, int>): State
  {
    State(now, Some(row), stored, map[1 := log], map[1 := 0], map[1 := received], workers, leases)
  }

  const Lease: map<nat, int> := map[9 := 121]
  const S1: State := At(0, Row(Opened, 1, None, 0, None), [Opened], [], [], map[], map[])
  const S2: State := At(0, Row(Staged, 2, Some(0), 0, None), [Opened, Staged], [], [], map[], map[])
  const S4: State := At(1, Row(Staged, 2, Some(0), 121, Some(9)), [Opened, Staged], [], [], map[9 := Claimed(1)], Lease)
  const S6: State := At(1, Row(Staged, 2, Some(0), 121, Some(9)), [Opened, Staged], [], Written,
                        map[9 := Delivering(1, Staged, 2, 100)], Lease)
  const S7: State := At(1, Row(Staged, 2, Some(0), 121, Some(9)), [Opened, Staged], [], Written,
                        map[9 := Saving(1, Staged, 2, Saved, Some(RepliedOnce), Written, 0)], Lease)
  const S8: State := At(1, Row(Restaged, 3, Some(0), 121, Some(9)), [Opened, Staged, Restaged], [], Written,
                        map[9 := Saving(1, Staged, 2, Saved, Some(RepliedOnce), Written, 0)], Lease)
  const S9: State := At(1, Row(Restaged, 3, Some(0), 121, Some(9)), [Opened, Staged, Restaged], [], Written,
                        map[9 := Saving(1, Restaged, 3, Saved, Some(RepliedOnce), Written, 0)], Lease)
  const S10: State := At(1, Row(Saved, 4, None, 121, Some(9)), [Opened, Staged, Restaged, Saved], Written, Written,
                         map[9 := Delivering(1, Saved, 4, 0)], Lease)

  lemma StepConfirm()
    ensures var e := Confirm(0, [Asked], 0, 0, 1); Enabled(CaptureProtocol.Start, e) && Step(CaptureProtocol.Start, e) == S1
  {
    ConfirmOpens();
    hide ConfirmedBy;
    assert [] + [Opened] == [Opened];
  }

  lemma EarlyQueue()
    ensures CaptureTurns.Aligned(Early, Chain(Seed, Early))
    ensures Advance(Opened, Early, Chain(Seed, Early), 0, 3, false, 0, 2) == (Staged, [EarlyTurn])
  {
    FirstCapture();
    hide Chain, Advance, Segment;
    StageQueues(Early, Chain(Seed, Early), Opened, 2);
    assert WholeTurn(Early, Chain(Seed, Early)) == EarlyTurn;
  }

  lemma LateQueue()
    ensures CaptureTurns.Aligned(Late, Chain(Seed, Late))
    ensures Advance(Staged, Late, Chain(Seed, Late), 0, 4, false, 0, 2) == (Restaged, [LateTurn])
  {
    LaterCapture();
    assert Confirmed(Staged.pending) == [] by { assert Staged.pending[1..] == []; }
    hide Chain, Advance, Segment, Confirmed;
    StageQueues(Late, Chain(Seed, Late), Staged, 2);
    assert WholeTurn(Late, Chain(Seed, Late)) == LateTurn;
    assert Staged.(pending := [LateTurn]) == Restaged;
  }

  lemma StepStage()
    ensures var e := Stage(1, 1, Early, 0, 0, 2); Enabled(S1, e) && Step(S1, e) == S2
  {
    Chains();
    EarlyQueue();
    hide Chain, Advance, DoQueue, CaptureTurns.Aligned;
    StageStores(S1, 1, Early, Opened, EarlyTurn);
    assert [Opened] + [Staged] == [Opened, Staged];
  }

  lemma StepClaim()
    ensures Enabled(S2, Tick(1)) && Enabled(Step(S2, Tick(1)), Claim(9)) && Step(Step(S2, Tick(1)), Claim(9)) == S4
  {
  }

  lemma StepWrite()
    ensures Enabled(S4, Read(9)) && Enabled(Step(S4, Read(9)), Write(9)) && Step(Step(S4, Read(9)), Write(9)) == S6
  {
    var s := Step(S4, Read(9));
    assert s.workers == map[9 := Delivering(1, Staged, 2, 0)];
    assert Written[0..2] == Written && [] + Written == Written;
    assert Step(s, Write(9)).workers == S6.workers;
  }

  lemma StepFinish()
    ensures Enabled(S6, Finish(9)) && Step(S6, Finish(9)) == S7
  {
    assert Staged.pending[1..] == [] && [] + [Retained(RepliedAt, 2)] == [Retained(RepliedAt, 2)];
    assert Delivered(Staged) == Saved;
    assert Step(S6, Finish(9)).workers == S7.workers;
  }

  lemma StepRestage()
    ensures var e := Stage(2, 1, Late, 0, 0, 2); Enabled(S7, e) && Step(S7, e) == S8
  {
    Chains();
    LateQueue();
    hide Chain, Advance, DoQueue, CaptureTurns.Aligned;
    StageStores(S7, 2, Late, Staged, LateTurn);
    assert [Opened, Staged] + [Restaged] == [Opened, Staged, Restaged];
  }

  lemma StepRetry()
    ensures Enabled(S8, Retry(9)) && Step(S8, Retry(9)) == S9
  {
    LateResultIsDropped();
    hide Remaining;
    assert Rebase(Restaged, Staged, Saved, Some(RepliedOnce)) == Some(Saved);
    assert Step(S8, Retry(9)).workers == S9.workers;
  }

  lemma StepSwap()
    ensures Enabled(S9, Swap(9)) && Step(S9, Swap(9)) == S10
  {
    var w := S9.workers[9];
    var row := Some(Row(Saved, 4, None, 121, Some(9)));
    assert SwapRow(S9.row, 3, Saved, ReadyAt(Saved), Some(9), 1) == (row, Swapped);
    assert DoSwap(S9, 9) == Recorded(S9, 9, row);
    assert [Opened, Staged, Restaged] + [Saved] == S10.stored && [] + Written == Written;
    assert Recorded(S9, 9, row).workers == S10.workers;
  }

  lemma {:induction false} RunsOn(s: State, events: seq<Event>, e: Event)
    requires Runs(s, events) && Enabled(Outcome(s, events), e)
    ensures Runs(s, events + [e]) && Outcome(s, events + [e]) == Step(Outcome(s, events), e)
    decreases |events|
  {
    hide Step, Enabled;
    if events == [] {
      assert (events + [e])[1..] == [];
    } else {
      assert (events + [e])[1..] == events[1..] + [e];
      RunsOn(Step(s, events[0]), events[1..], e);
    }
  }

  lemma StartRuns()
    ensures Runs(CaptureProtocol.Start, []) && Outcome(CaptureProtocol.Start, []) == CaptureProtocol.Start
  {
  }

  /** A request stages a reply; while a worker sends it, the same request's continuation stages it again with
      the result of an earlier call. In the end nothing is queued, the delivered position is the reply, and
      that call was captured but neither recorded nor sent. */
  lemma CallIsLost() returns (events: seq<Event>)
    ensures Runs(CaptureProtocol.Start, events)
    ensures var s := Outcome(CaptureProtocol.Start, events);
            && s.row.Some? && s.row.value.value.pending == [] && s.row.value.value.delivered == Some(RepliedAt)
            && 1 in s.log && 1 in s.received && CalledOnce !in s.log[1] && CalledOnce !in s.received[1]
            && Restaged in s.stored && CalledOnce in Flatten(Restaged.pending)
  {
    StepConfirm();
    StepStage();
    StepClaim();
    StepWrite();
    StepFinish();
    StepRestage();
    StepRetry();
    StepSwap();
    LostAtLast();
    hide Runs, Outcome, Step, Enabled;
    StartRuns();
    var a := [] + [Confirm(0, [Asked], 0, 0, 1)];
    RunsOn(CaptureProtocol.Start, [], Confirm(0, [Asked], 0, 0, 1));
    RunsOn(CaptureProtocol.Start, a, Stage(1, 1, Early, 0, 0, 2));
    var b := a + [Stage(1, 1, Early, 0, 0, 2)];
    RunsOn(CaptureProtocol.Start, b, Tick(1));
    RunsOn(CaptureProtocol.Start, b + [Tick(1)], Claim(9));
    var c := b + [Tick(1)] + [Claim(9)];
    RunsOn(CaptureProtocol.Start, c, Read(9));
    RunsOn(CaptureProtocol.Start, c + [Read(9)], Write(9));
    var d := c + [Read(9)] + [Write(9)];
    RunsOn(CaptureProtocol.Start, d, Finish(9));
    RunsOn(CaptureProtocol.Start, d + [Finish(9)], Stage(2, 1, Late, 0, 0, 2));
    var e := d + [Finish(9)] + [Stage(2, 1, Late, 0, 0, 2)];
    RunsOn(CaptureProtocol.Start, e, Retry(9));
    RunsOn(CaptureProtocol.Start, e + [Retry(9)], Swap(9));
    events := e + [Retry(9)] + [Swap(9)];
  }

  lemma LostAtLast()
    ensures S10.row.Some? && S10.row.value.value.pending == [] && S10.row.value.value.delivered == Some(RepliedAt)
    ensures 1 in S10.log && 1 in S10.received && CalledOnce !in S10.log[1] && CalledOnce !in S10.received[1]
    ensures Restaged in S10.stored && CalledOnce in Flatten(Restaged.pending)
  {
    assert S10.stored[2] == Restaged;
    assert LateTurn.messages[1] == CalledOnce;
  }
}
