/**
 What a session's observation document holds after any run of the recall ledger: its other fields, the size of
 every reservation, and when a request is refused one (`reserve_recall` and `update_observation` in kernel.py).
 */
module RecallBudgets {
  import opened Basics
  import opened Stores
  import opened Sums
  import opened RecallLedger

  // ---------------------------------------------------------------- the other fields

  function Extra(s: State): nat {
    if Latest(s).Some? then Latest(s).value.extra else 0
  }

  lemma ExtraStep(s: State, e: Event)
    requires Enabled(s, e)
    ensures Extra(Step(s, e)) == if e.Observe? then e.extra else Extra(s)
    ensures |s.stored| <= |Step(s, e).stored| && (e.Observe? ==> |s.stored| < |Step(s, e).stored|)
  {
    hide Used, UsedMap;
  }

  /** `i` is where the last observation is, or -1. */
  lemma {:induction false} ExtraRuns(s: State, events: seq<Event>, i: int)
    requires Runs(s, events) && -1 <= i < |events| && (i >= 0 ==> events[i].Observe?)
    requires forall j :: i < j < |events| ==> !events[j].Observe?
    ensures |s.stored| <= |Outcome(s, events).stored| && (i >= 0 ==> Outcome(s, events).stored != [])
    ensures Extra(Outcome(s, events)) == if i < 0 then Extra(s) else events[i].extra
    decreases |events|
  {
    hide Enabled, Step, Extra;
    if events != [] {
      ExtraStep(s, events[0]);
      assert i < 0 ==> !events[0].Observe?;
      ExtraRuns(Step(s, events[0]), events[1..], if i < 0 then -1 else i - 1);
    }
  }

  /** In every run: the document's other fields are those of the last observation; reserving and settling leave
      them alone. */
  lemma ExtraIsLastObserved(policy: Policy, events: seq<Event>, i: nat)
    requires Runs(Start(policy), events) && i < |events| && events[i].Observe?
    requires forall j :: i < j < |events| ==> !events[j].Observe?
    ensures var s := Outcome(Start(policy), events); Latest(s).Some? && Latest(s).value.extra == events[i].extra
  {
    hide Enabled, Step, Runs, Outcome;
    ExtraRuns(Start(policy), events, i);
  }

  function Window(s: State): Option<nat> {
    if Latest(s).Some? && Latest(s).value.ledger.Some? then Some(Latest(s).value.ledger.value.window) else None
  }

  /** Only a reservation moves the ledger to another window, and to that request's. */
  lemma WindowMoves(s: State, e: Event)
    requires Enabled(s, e) && Window(Step(s, e)) != Window(s)
    ensures e.Reserve? && Window(Step(s, e)) == Some(s.requests[e.id].window) && |Step(s, e).stored| == |s.stored| + 1
  {
    hide Used, UsedMap;
  }

  /** A settlement is done once its reservation is gone from the document it read, or it took it out of the current
      one itself; otherwise it goes on with the current one. */
  lemma SettlesUntilGone(s: State, id: nat)
    requires Enabled(s, Settle(id))
    ensures var r, t := s.requests[id], Step(s, Settle(id));
            && id in t.requests
            && (t.requests[id].Done? <==> !Pends(ValueAt(s, r.version), r.anchor) || r.version == |s.stored|)
            && (t.requests[id].Done? && r.version == |s.stored| ==> r.anchor !in Pending(t))
            && (!t.requests[id].Done? ==> t.stored == s.stored && t.requests[id] == Decided(r.anchor, |s.stored|))
  {
  }

  // ---------------------------------------------------------------- the size of a reservation

  predicate SizedDoc(o: Observation, max: nat) {
    o.ledger.Some? ==> forall a :: a in o.ledger.value.pending ==> 64 <= o.ledger.value.pending[a] <= max
  }

  /** Every reservation in every version of the document, and every one a request holds. */
  ghost predicate Sized(s: State) {
    && (forall u :: 0 <= u < |s.stored| ==> SizedDoc(s.stored[u], s.policy.maxTokens))
    && (forall id :: id in s.requests && s.requests[id].Reserved? ==>
          64 <= s.requests[id].budget <= s.policy.maxTokens)
  }

  lemma OffersAreSized(o: Option<Observation>, policy: Policy, anchor: nat, window: nat, used: nat)
    requires o.Some? ==> SizedDoc(o.value, policy.maxTokens)
    ensures var offer := OfferOf(o, policy, anchor, window, used);
            && (offer.Shared? || offer.Ask? ==> 64 <= offer.budget <= policy.maxTokens)
            && (offer.Ask? ==> SizedDoc(offer.value, policy.maxTokens))
  {
  }

  lemma SettledIsSized(o: Observation, anchor: nat, tokens: nat, max: nat)
    requires Pends(Some(o), anchor) && SizedDoc(o, max)
    ensures SizedDoc(Settled(o, anchor, tokens), max)
  {
  }

  lemma ObservedIsSized(o: Option<Observation>, extra: nat, max: nat)
    requires o.Some? ==> SizedDoc(o.value, max)
    ensures SizedDoc(Observation(if o.Some? then o.value.ledger else None, extra), max)
  {
  }

  lemma SizedReserve(s: State, id: nat)
    requires Sized(s) && Enabled(s, Reserve(id))
    ensures Sized(DoReserve(s, id)) && DoReserve(s, id).policy == s.policy
  {
    hide OfferOf, Used, UsedMap, SizedDoc;
    var r := s.requests[id];
    OffersAreSized(ValueAt(s, r.version), s.policy, r.anchor, r.window, Used(s, r.used));
  }

  lemma SizedSettle(s: State, id: nat)
    requires Sized(s) && Enabled(s, Settle(id))
    ensures Sized(DoSettle(s, id)) && DoSettle(s, id).policy == s.policy
  {
    hide SizedDoc, Settled, Pends;
    var r := s.requests[id];
    if Pends(ValueAt(s, r.version), r.anchor) {
      assert r.version > 0 by { NothingPends(r.anchor); }
      SettledIsSized(s.stored[r.version - 1], r.anchor, s.decisions[r.anchor], s.policy.maxTokens);
    }
  }

  lemma NothingPends(anchor: nat)
    ensures !Pends(None, anchor)
  {
  }

  lemma SizedStep(s: State, e: Event)
    requires Sized(s) && Enabled(s, e)
    ensures Sized(Step(s, e)) && Step(s, e).policy == s.policy
  {
    hide DoReserve, DoSettle, SizedDoc;
    match e {
      case Load(_, _, _, _, _) =>
      case Reserve(id) => SizedReserve(s, id);
      case Decide(_, _) =>
      case Settle(id) => SizedSettle(s, id);
      case Observe(extra) => ObservedIsSized(Latest(s), extra, s.policy.maxTokens);
    }
  }

  lemma {:induction false} SizedRuns(s: State, events: seq<Event>)
    requires Sized(s) && Runs(s, events)
    ensures Sized(Outcome(s, events)) && Outcome(s, events).policy == s.policy
    decreases |events|
  {
    hide Enabled, Step, Sized;
    if events != [] {
      SizedStep(s, events[0]);
      SizedRuns(Step(s, events[0]), events[1..]);
    }
  }

  /** In every run: an open reservation is at least 64 tokens and at most what the policy allows one recall. */
  lemma ReservationsAreSized(policy: Policy, events: seq<Event>, a: nat)
    requires Runs(Start(policy), events) && a in Pending(Outcome(Start(policy), events))
    ensures 64 <= Pending(Outcome(Start(policy), events))[a] <= policy.maxTokens
  {
    hide Enabled, Step;
    SizedRuns(Start(policy), events);
    var s := Outcome(Start(policy), events);
    assert SizedDoc(s.stored[|s.stored| - 1], policy.maxTokens);
  }

  /** In every run: so is what a request was granted, shared or not. */
  lemma GrantsAreSized(policy: Policy, events: seq<Event>, id: nat)
    requires Runs(Start(policy), events)
    requires var s := Outcome(Start(policy), events); id in s.requests && s.requests[id].Reserved?
    ensures 64 <= Outcome(Start(policy), events).requests[id].budget <= policy.maxTokens
  {
    hide Enabled, Step;
    SizedRuns(Start(policy), events);
  }

  // ---------------------------------------------------------------- refusals

  /** What is left of the session's cap for a request: after the ledger in force if that is its window's, and
      otherwise after the recorded decisions it counted. */
  ghost function Left(s: State, r: Request): int
    requires r.Loaded?
  {
    s.policy.sessionMax - if Continues(s, r.window) then Spent(s) else Used(s, r.used)
  }

  /** A request that read the current document is refused exactly if its anchor has no reservation in this window
      and fewer than 64 tokens are left, of one recall's allowance or of the cap. */
  lemma RefusedExactly(s: State, id: nat)
    requires Enabled(s, Reserve(id)) && s.requests[id].version == |s.stored|
    ensures var r, t := s.requests[id], Step(s, Reserve(id));
            && id in t.requests
            && (t.requests[id].Unreserved? <==>
                  && !(Continues(s, r.window) && r.anchor in Pending(s))
                  && (s.policy.maxTokens < 64 || Left(s, r) < 64))
            && (t.requests[id].Unreserved? ==> t.stored == s.stored)
  {
    hide Used, UsedMap, OfferOf;
    var r := s.requests[id];
    OfferExactly(Latest(s), s.policy, r.anchor, r.window, Used(s, r.used), Continues(s, r.window), Left(s, r));
  }

  /** Otherwise it shares its anchor's reservation, or takes the smaller of the two and adds it to the ledger. */
  lemma GrantedExactly(s: State, id: nat)
    requires Enabled(s, Reserve(id)) && s.requests[id].version == |s.stored|
    requires var t := Step(s, Reserve(id)); id in t.requests && !t.requests[id].Unreserved?
    ensures var r, t := s.requests[id], Step(s, Reserve(id));
            && t.requests[id].Reserved? && t.requests[id].anchor == r.anchor
            && var budget := t.requests[id].budget;
               if Continues(s, r.window) && r.anchor in Pending(s) then t.stored == s.stored && budget == Pending(s)[r.anchor]
               else
                 && budget <= s.policy.maxTokens && budget <= Left(s, r)
                 && (budget == s.policy.maxTokens || budget == Left(s, r))
                 && Continues(t, r.window) && Spent(t) == s.policy.sessionMax - Left(s, r) + budget
                 && Pending(t) == (if Continues(s, r.window) then Pending(s) else map[])[r.anchor := budget]
  {
    hide Used, UsedMap, OfferOf;
    var r := s.requests[id];
    OfferExactly(Latest(s), s.policy, r.anchor, r.window, Used(s, r.used), Continues(s, r.window), Left(s, r));
  }

  /** In every run: a request of the ledger's own window that is refused found it full: what was settled for this
      window's anchors and what is still reserved leave fewer than 64 tokens of the cap, unless one recall is
      allowed fewer than that. */
  lemma RefusalsAreDue(policy: Policy, events: seq<Event>, s: State, id: nat)
    requires Runs(Start(policy), events) && s == Outcome(Start(policy), events) && Enabled(s, Reserve(id))
    requires s.requests[id].version == |s.stored| && Continues(s, s.requests[id].window)
    requires var t := Step(s, Reserve(id)); id in t.requests && t.requests[id].Unreserved?
    ensures s.requests[id].anchor !in Pending(s)
    ensures policy.maxTokens < 64 || Sum(ChargeMap(s)) + 64 > policy.sessionMax
  {
    hide Runs, Outcome, Inv, Step, ChargeMap, Used;
    RefusedExactly(s, id);
    PolicyStays(policy, events);
    LedgerIsExact(policy, events);
  }

  lemma PolicyStays(policy: Policy, events: seq<Event>)
    requires Runs(Start(policy), events)
    ensures Outcome(Start(policy), events).policy == policy
  {
    hide Enabled, Step;
    SizedRuns(Start(policy), events);
  }
}
