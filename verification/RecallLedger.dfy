/**
 The recall budget of one session (`reserve_recall`, `settle_recall` and the decision between them
 in kernel.py): requests reserve tokens in a versioned ledger, record an immutable decision, and
 settle the reservation. They may race, repeat each other's anchor, and stop at any point.
 */
module RecallLedger {
  import opened Basics
  import opened Stores
  import opened Sums

  const LEAST_BUDGET := 64

  datatype Policy = Policy(maxTokens: nat, sessionMax: nat)
  datatype Ledger = Ledger(window: nat, spent: int, pending: map<nat, nat>)
  /** A session's observation document; `extra` stands for its other fields. */
  datatype Observation = Observation(ledger: Option<Ledger>, extra: nat)

  // ---------------------------------------------------------------- one reservation, one settlement

  /** What `reserve_recall` makes of a document: share a reservation, have no budget, or ask for one. */
  datatype Offer = Shared(budget: nat) | Refused | Ask(budget: nat, value: Observation)

  /** The ledger of this window; another window starts over from the records in this one. */
  function Current(o: Option<Observation>, window: nat, used: nat): Ledger {
    if o.Some? && o.value.ledger.Some? && o.value.ledger.value.window == window then o.value.ledger.value
    else Ledger(window, used, map[])
  }

  function Budget(policy: Policy, spent: int): int {
    Min(policy.maxTokens, policy.sessionMax - spent)
  }

  function OfferOf(o: Option<Observation>, policy: Policy, anchor: nat, window: nat, used: nat): Offer {
    var ledger := Current(o, window, used);
    if anchor in ledger.pending then Shared(ledger.pending[anchor])
    else if Budget(policy, ledger.spent) < LEAST_BUDGET then Refused
    else
      var budget := Budget(policy, ledger.spent);
      Ask(budget, Observation(Some(Ledger(window, ledger.spent + budget, ledger.pending[anchor := budget])),
                              if o.Some? then o.value.extra else 0))
  }

  /** An offer by the document it was made on: what the ledger in force, if it is this window's, has spent and
      holds in reserve. */
  lemma OfferExactly(o: Option<Observation>, policy: Policy, anchor: nat, window: nat, used: nat, same: bool, left: int)
    requires same <==> o.Some? && o.value.ledger.Some? && o.value.ledger.value.window == window
    requires left == policy.sessionMax - if same then o.value.ledger.value.spent else used
    ensures var offer := OfferOf(o, policy, anchor, window, used);
            && (offer.Shared? <==> same && anchor in o.value.ledger.value.pending)
            && (offer.Shared? ==> offer.budget == o.value.ledger.value.pending[anchor])
            && (offer.Refused? <==> !offer.Shared? && (policy.maxTokens < 64 || left < 64))
            && (offer.Ask? ==>
                  && offer.budget <= policy.maxTokens && offer.budget <= left
                  && (offer.budget == policy.maxTokens || offer.budget == left)
                  && offer.value.ledger ==
                     Some(Ledger(window, policy.sessionMax - left + offer.budget,
                                 (if same then o.value.ledger.value.pending else map[])[anchor := offer.budget]))
                  && offer.value.extra == (if o.Some? then o.value.extra else 0))
  {
  }

  predicate Pends(o: Option<Observation>, anchor: nat) {
    o.Some? && o.value.ledger.Some? && anchor in o.value.ledger.value.pending
  }

  /** The document without the reservation: its tokens go back, the decision's are spent. */
  function Settled(o: Observation, anchor: nat, tokens: nat): Observation
    requires Pends(Some(o), anchor)
  {
    var ledger := o.ledger.value;
    o.(ledger := Some(ledger.(spent := ledger.spent - ledger.pending[anchor] + tokens,
                              pending := ledger.pending - {anchor})))
  }

  /** The documents a swap loop meets: the one it starts from, then the one it reads after each lost swap. */
  function Met(first: Versioned<Observation>, later: seq<Versioned<Observation>>, i: nat): Versioned<Observation>
    requires i <= |later|
  {
    if i == 0 then first else later[i - 1]
  }

  /** The loop of `reserve_recall`, losing a swap for each document in `later`: it goes on only while there
      is something to ask for, and what it stores is asked of the last document. */
  method ReserveRecall(policy: Policy, anchor: nat, window: nat, used: nat,
                       observation: Versioned<Observation>, later: seq<Versioned<Observation>>)
    returns (budget: nat, lost: nat, stored: Option<Observation>)
    ensures lost <= |later| && forall i :: 0 <= i < lost ==> OfferOf(Met(observation, later, i).value, policy, anchor, window, used).Ask?
    ensures stored.Some? ==> lost == |later|
    ensures match OfferOf(Met(observation, later, lost).value, policy, anchor, window, used)
            case Shared(b) => budget == b && stored.None?
            case Refused => budget == 0 && stored.None?
            case Ask(b, value) => budget == b && stored == Some(value)
    ensures var o := Met(observation, later, lost).value;
            var same := o.Some? && o.value.ledger.Some? && o.value.ledger.value.window == window;
            var left := policy.sessionMax - if same then o.value.ledger.value.spent else used;
            if same && anchor in o.value.ledger.value.pending
            then budget == o.value.ledger.value.pending[anchor] && stored.None?
            else if policy.maxTokens < 64 || left < 64 then budget == 0 && stored.None?
            else
              && budget <= policy.maxTokens && budget <= left && (budget == policy.maxTokens || budget == left)
              && stored == Some(Observation(Some(Ledger(window, policy.sessionMax - left + budget,
                                                        (if same then o.value.ledger.value.pending else map[])[anchor := budget])),
                                            if o.Some? then o.value.extra else 0))
  {
    hide OfferOf;
    lost := 0;
    var seen := observation;
    while true
      invariant lost <= |later| && seen == Met(observation, later, lost)
      invariant forall i :: 0 <= i < lost ==> OfferOf(Met(observation, later, i).value, policy, anchor, window, used).Ask?
      decreases |later| - lost
    {
      ghost var same := seen.value.Some? && seen.value.value.ledger.Some? && seen.value.value.ledger.value.window == window;
      OfferExactly(seen.value, policy, anchor, window, used, same,
                   policy.sessionMax - if same then seen.value.value.ledger.value.spent else used);
      match OfferOf(seen.value, policy, anchor, window, used) {
        case Shared(b) => return b, lost, None;
        case Refused => return 0, lost, None;
        case Ask(b, value) =>
          if lost == |later| {
            return b, lost, Some(value);
          }
          seen, lost := later[lost], lost + 1;
      }
    }
  }

  /** The loop of `settle_recall`: it stops as soon as the reservation is gone. */
  method SettleRecall(anchor: nat, tokens: nat, observation: Versioned<Observation>,
                      later: seq<Versioned<Observation>>)
    returns (lost: nat, stored: Option<Observation>)
    ensures lost <= |later| && forall i :: 0 <= i < lost ==> Pends(Met(observation, later, i).value, anchor)
    ensures stored.None? <==> !Pends(Met(observation, later, lost).value, anchor)
    ensures stored.Some? ==> lost == |later| && stored.value == Settled(Met(observation, later, lost).value.value, anchor, tokens)
  {
    lost := 0;
    var seen := observation;
    while Pends(seen.value, anchor) && lost < |later|
      invariant lost <= |later| && seen == Met(observation, later, lost)
      invariant forall i :: 0 <= i < lost ==> Pends(Met(observation, later, i).value, anchor)
    {
      seen, lost := later[lost], lost + 1;
    }
    stored := if Pends(seen.value, anchor) then Some(Settled(seen.value.value, anchor, tokens)) else None;
  }

  // ---------------------------------------------------------------- the protocol

  datatype Request =
    | Loaded(anchor: nat, window: nat, used: set<nat>, version: nat)
    | Reserved(anchor: nat, budget: nat, version: nat, era: nat)
    | Unreserved(anchor: nat)
    | Decided(anchor: nat, version: nat)
    | Done

  /** `stored[v - 1]` is the document at version v, and `eras[v - 1]` the era it belongs to: a new era
      starts whenever a ledger starts over. `decidedIn` says in which era the reservation behind a decision was
      made. Of the current era, `base` are the decided anchors the ledger started from, and `paid` has
      what was settled so far for each of those and for each anchor reserved since. `clean`: none of its
      reservations was for a decided anchor, and none was decided from elsewhere. */
  datatype State = State(policy: Policy, stored: seq<Observation>, eras: seq<nat>, era: nat,
                         decisions: map<nat, nat>, decidedIn: map<nat, nat>, requests: map<nat, Request>,
                         base: set<nat>, paid: map<nat, nat>, clean: bool)

  datatype Event =
    | Load(id: nat, anchor: nat, window: nat, used: set<nat>, version: nat)
    | Reserve(id: nat)
    | Decide(id: nat, tokens: nat)
    | Settle(id: nat)
    | Observe(extra: nat)

  function Start(policy: Policy): State {
    State(policy, [], [], 0, map[], map[], map[], {}, map[], true)
  }

  function ValueAt(s: State, version: nat): Option<Observation>
    requires version <= |s.stored|
  {
    if version == 0 then None else Some(s.stored[version - 1])
  }

  function Latest(s: State): Option<Observation> {
    ValueAt(s, |s.stored|)
  }

  function Pending(s: State): map<nat, nat> {
    if Latest(s).Some? && Latest(s).value.ledger.Some? then Latest(s).value.ledger.value.pending else map[]
  }

  function Spent(s: State): int {
    if Latest(s).Some? && Latest(s).value.ledger.Some? then Latest(s).value.ledger.value.spent else 0
  }

  /** The tokens of the recorded decisions a request counted when it loaded. */
  ghost function Used(s: State, used: set<nat>): nat {
    Sum(UsedMap(s, used))
  }

  ghost function UsedMap(s: State, used: set<nat>): map<nat, nat> {
    map a | a in used && a in s.decisions :: s.decisions[a]
  }

  /** The request would extend the ledger in force. */
  predicate Continues(s: State, window: nat) {
    Latest(s).Some? && Latest(s).value.ledger.Some? && Latest(s).value.ledger.value.window == window
  }

  ghost predicate Enabled(s: State, e: Event) {
    match e
    case Load(id, anchor, _, used, version) =>
      id !in s.requests && version <= |s.stored| && used <= s.decisions.Keys && anchor !in used
    case Reserve(id) =>
      id in s.requests && s.requests[id].Loaded? && s.requests[id].version <= |s.stored| && |s.eras| == |s.stored|
    case Decide(id, tokens) =>
      && id in s.requests
      && (|| (s.requests[id].Reserved? && tokens <= s.requests[id].budget)
          || (s.requests[id].Unreserved? && tokens == 0))
    case Settle(id) =>
      && id in s.requests && s.requests[id].Decided? && s.requests[id].version <= |s.stored|
      && s.requests[id].anchor in s.decisions
    case Observe(_) => true
  }

  function Set(s: State, id: nat, r: Request): State {
    s.(requests := s.requests[id := r])
  }

  ghost function DoReserve(s: State, id: nat): State
    requires Enabled(s, Reserve(id))
  {
    var r := s.requests[id];
    var offer := OfferOf(ValueAt(s, r.version), s.policy, r.anchor, r.window, Used(s, r.used));
    match offer
    case Shared(b) =>
      Set(s, id, Reserved(r.anchor, b, r.version, if r.version == 0 then 0 else s.eras[r.version - 1]))
    case Refused => Set(s, id, Unreserved(r.anchor))
    case Ask(b, value) =>
      if r.version != |s.stored| then Set(s, id, Loaded(r.anchor, r.window, r.used, |s.stored|))
      else if Continues(s, r.window) then
        Set(s, id, Reserved(r.anchor, b, r.version + 1, s.era))
          .(stored := s.stored + [value], eras := s.eras + [s.era],
            paid := if r.anchor in s.paid then s.paid else s.paid[r.anchor := 0],
            clean := s.clean && r.anchor !in s.decisions)
      else
        Set(s, id, Reserved(r.anchor, b, r.version + 1, s.era + 1))
          .(stored := s.stored + [value], eras := s.eras + [s.era + 1], era := s.era + 1,
            base := r.used, paid := UsedMap(s, r.used)[r.anchor := 0], clean := r.anchor !in s.decisions)
  }

  /** Put-if-absent: the first decision for an anchor stays. */
  function DoDecide(s: State, id: nat, tokens: nat): State
    requires id in s.requests && (s.requests[id].Reserved? || s.requests[id].Unreserved?)
  {
    var r := s.requests[id];
    var t := Set(s, id, if r.Reserved? then Decided(r.anchor, r.version) else Done);
    if r.anchor in s.decisions then t
    else t.(decisions := s.decisions[r.anchor := tokens],
            decidedIn := if r.Reserved? then s.decidedIn[r.anchor := r.era] else s.decidedIn,
            clean := s.clean && ((r.Reserved? && r.era == s.era) || r.anchor !in Pending(s)))
  }

  ghost function DoSettle(s: State, id: nat): State
    requires Enabled(s, Settle(id))
  {
    var r := s.requests[id];
    if !Pends(ValueAt(s, r.version), r.anchor) then Set(s, id, Done)
    else if r.version != |s.stored| then Set(s, id, Decided(r.anchor, |s.stored|))
    else Set(s, id, Done).(stored := s.stored + [Settled(ValueAt(s, r.version).value, r.anchor, s.decisions[r.anchor])],
                           eras := s.eras + [s.era],
                           paid := s.paid[r.anchor := At(s.paid, r.anchor) + s.decisions[r.anchor]])
  }

  ghost function Step(s: State, e: Event): State
    requires Enabled(s, e)
  {
    match e
    case Load(id, anchor, window, used, version) => Set(s, id, Loaded(anchor, window, used, version))
    case Reserve(id) => DoReserve(s, id)
    case Decide(id, tokens) => DoDecide(s, id, tokens)
    case Settle(id) => DoSettle(s, id)
    case Observe(extra) =>
      s.(stored := s.stored + [Observation(if Latest(s).Some? then Latest(s).value.ledger else None, extra)],
         eras := s.eras + [s.era])
  }

  ghost predicate Runs(s: State, events: seq<Event>)
    decreases |events|
  {
    events == [] || (Enabled(s, events[0]) && Runs(Step(s, events[0]), events[1..]))
  }

  ghost function Outcome(s: State, events: seq<Event>): State
    requires Runs(s, events)
    decreases |events|
  {
    if events == [] then s else Outcome(Step(s, events[0]), events[1..])
  }

  // ---------------------------------------------------------------- what an anchor weighs

  /** What the ledger's `spent` holds for an anchor: what was settled for it, and its reservation. */
  ghost function ChargeOf(s: State, a: nat): nat {
    if a in s.paid then s.paid[a] + At(Pending(s), a) else 0
  }

  /** What an anchor of this era costs: its decision, whoever recorded it, or its open reservation. */
  ghost function CostOf(s: State, a: nat): nat {
    if a !in s.paid then 0 else if a in s.decisions then s.decisions[a] else At(Pending(s), a)
  }

  /** An anchor this era reserved that a request decided under an earlier era's reservation. */
  predicate Stray(s: State, a: nat) {
    a in s.paid && a !in s.base && a in s.decisions && a in s.decidedIn && s.decidedIn[a] < s.era
  }

  ghost function StrayOf(s: State, a: nat): nat {
    if Stray(s, a) then s.decisions[a] else 0
  }

  ghost function OwnOf(s: State, a: nat): nat {
    if Stray(s, a) then 0 else CostOf(s, a)
  }

  ghost function ChargeMap(s: State): map<nat, nat> {
    map a | a in s.paid :: ChargeOf(s, a)
  }

  ghost function CostMap(s: State): map<nat, nat> {
    map a | a in s.paid :: CostOf(s, a)
  }

  ghost function OwnMap(s: State): map<nat, nat> {
    map a | a in s.paid :: OwnOf(s, a)
  }

  ghost function StrayMap(s: State): map<nat, nat> {
    map a | a in s.paid :: StrayOf(s, a)
  }

  /** The tokens of the distinct decisions on every anchor this era started from or reserved, and of its
      undecided reservations. */
  ghost function Cost(s: State): nat {
    Sum(CostMap(s))
  }

  /** The tokens that requests of earlier eras decided on this era's anchors. */
  ghost function Strays(s: State): nat {
    Sum(StrayMap(s))
  }

  lemma CostSplits(s: State)
    ensures Cost(s) == Sum(OwnMap(s)) + Strays(s)
  {
    SumPlus(OwnMap(s), StrayMap(s), CostMap(s));
  }

  // ---------------------------------------------------------------- the invariant

  ghost predicate ErasOk(s: State) {
    && |s.eras| == |s.stored|
    && (forall u :: 0 <= u < |s.eras| ==> s.eras[u] <= s.era)
    && (s.stored != [] ==> Last(s.eras) == s.era)
    && (s.stored == [] ==> s.paid == map[])
  }

  /** A reservation made in this era still stands, or its anchor was decided. */
  ghost predicate Stands(s: State, a: nat, budget: nat) {
    a in s.paid && ((a in Pending(s) && Pending(s)[a] == budget) || a in s.decisions)
  }

  ghost predicate HistoryOk(s: State) {
    forall u, a :: 0 <= u < |s.stored| && u < |s.eras| && s.eras[u] == s.era && Pends(Some(s.stored[u]), a) ==>
      Stands(s, a, s.stored[u].ledger.value.pending[a])
  }

  ghost predicate RequestOk(s: State, r: Request) {
    match r
    case Loaded(a, _, used, version) => used <= s.decisions.Keys && version <= |s.stored| && a !in used
    case Reserved(a, budget, version, era) =>
      version <= |s.stored| && era <= s.era && (era == s.era ==> Stands(s, a, budget))
    case Decided(a, version) => a in s.decisions && version <= |s.stored|
    case Unreserved(_) => true
    case Done => true
  }

  /** One anchor's accounts. Only a request without a reservation decides for nothing in particular, and
      for no tokens. An anchor of the era is pending or settled; decisions under its own reservations
      fit what is charged for them. */
  ghost predicate AnchorOk(s: State, a: nat) {
    && (a in s.decidedIn ==> a in s.decisions && s.decidedIn[a] <= s.era && (s.decidedIn[a] == s.era ==> a in s.paid))
    && (a in s.decisions && a !in s.decidedIn ==> s.decisions[a] == 0)
    && (a in Pending(s) || a in s.base ==> a in s.paid)
    && (a in s.paid && (a !in Pending(s) || s.paid[a] > 0 || a in s.base) ==> a in s.decisions && s.decisions[a] <= s.paid[a])
    && (a in s.paid && a in s.decisions && !Stray(s, a) ==> s.decisions[a] <= ChargeOf(s, a))
    && (s.clean && a in Pending(s) && a in s.decisions ==> s.decisions[a] <= Pending(s)[a])
  }

  ghost predicate AnchorsOk(s: State) {
    forall a :: AnchorOk(s, a)
  }

  ghost predicate BudgetOk(s: State) {
    && Spent(s) == Sum(ChargeMap(s))
    && Sum(OwnMap(s)) <= s.policy.sessionMax
    && (s.clean ==> Spent(s) <= s.policy.sessionMax)
  }

  ghost predicate AccountsOk(s: State) {
    AnchorsOk(s) && BudgetOk(s)
  }

  ghost predicate Inv(s: State) {
    && ErasOk(s) && HistoryOk(s) && AccountsOk(s)
    && (forall id :: id in s.requests ==> RequestOk(s, s.requests[id]))
  }

  /** What this era's own requests decided or reserved never costs more than the ledger holds as spent. */
  lemma OwnCostBelowSpent(s: State)
    requires AnchorsOk(s)
    ensures Sum(OwnMap(s)) <= Sum(ChargeMap(s))
  {
    forall a | a in OwnMap(s) ensures OwnMap(s)[a] <= At(ChargeMap(s), a) {
      assert AnchorOk(s, a);
    }
    SumBelow(OwnMap(s), ChargeMap(s));
  }

  /** The two states differ at most in what they hold for `a`. */
  ghost predicate OnlyAt(s: State, t: State, a: nat) {
    && s.era == t.era && s.base == t.base
    && s.paid - {a} == t.paid - {a}
    && s.decisions - {a} == t.decisions - {a} && s.decidedIn - {a} == t.decidedIn - {a}
    && Pending(s) - {a} == Pending(t) - {a}
  }

  /** Maps that agree outside `a` agree at any other key. */
  lemma AgreeAt(m: map<nat, nat>, n: map<nat, nat>, a: nat, x: nat)
    requires m - {a} == n - {a} && x != a
    ensures (x in m <==> x in n) && (x in m ==> m[x] == n[x])
  {
    assert x in m <==> x in m - {a};
    assert x in n <==> x in n - {a};
    assert x in m ==> m[x] == (m - {a})[x] == (n - {a})[x] == n[x];
  }

  lemma SameFor(s: State, t: State, a: nat, x: nat)
    requires OnlyAt(s, t, a) && x != a
    ensures s.base == t.base && s.era == t.era
    ensures (x in s.paid <==> x in t.paid) && (x in s.paid ==> s.paid[x] == t.paid[x])
    ensures (x in s.decisions <==> x in t.decisions) && (x in s.decisions ==> s.decisions[x] == t.decisions[x])
    ensures (x in s.decidedIn <==> x in t.decidedIn) && (x in s.decidedIn ==> s.decidedIn[x] == t.decidedIn[x])
    ensures (x in Pending(s) <==> x in Pending(t)) && (x in Pending(s) ==> Pending(s)[x] == Pending(t)[x])
    ensures Stray(s, x) <==> Stray(t, x)
    ensures ChargeOf(s, x) == ChargeOf(t, x) && CostOf(s, x) == CostOf(t, x) && OwnOf(s, x) == OwnOf(t, x)
  {
    hide Pending;
    AgreeAt(s.paid, t.paid, a, x);
    AgreeAt(s.decisions, t.decisions, a, x);
    AgreeAt(s.decidedIn, t.decidedIn, a, x);
    AgreeAt(Pending(s), Pending(t), a, x);
  }

  lemma WeightsOutside(s: State, a: nat)
    ensures At(ChargeMap(s), a) == ChargeOf(s, a) && At(CostMap(s), a) == CostOf(s, a) && At(OwnMap(s), a) == OwnOf(s, a)
  {
  }

  lemma SumsChange(s: State, t: State, a: nat)
    requires OnlyAt(s, t, a)
    ensures Sum(ChargeMap(t)) == Sum(ChargeMap(s)) - ChargeOf(s, a) + ChargeOf(t, a)
    ensures Cost(t) == Cost(s) - CostOf(s, a) + CostOf(t, a)
    ensures Sum(OwnMap(t)) == Sum(OwnMap(s)) - OwnOf(s, a) + OwnOf(t, a)
  {
    var m, n := ChargeMap(s) - {a}, ChargeMap(t) - {a};
    var c, d := CostMap(s) - {a}, CostMap(t) - {a};
    var e, f := OwnMap(s) - {a}, OwnMap(t) - {a};
    hide Pending, ChargeOf, CostOf, OwnOf, Stray, OnlyAt;
    forall x | x != a
      ensures (x in m <==> x in n) && (x in m ==> m[x] == n[x])
      ensures (x in c <==> x in d) && (x in c ==> c[x] == d[x])
      ensures (x in e <==> x in f) && (x in e ==> e[x] == f[x])
    {
      SameFor(s, t, a, x);
    }
    assert m == n && c == d && e == f;
    WeightsOutside(s, a);
    WeightsOutside(t, a);
    SumChange(ChargeMap(s), ChargeMap(t), a);
    SumChange(CostMap(s), CostMap(t), a);
    SumChange(OwnMap(s), OwnMap(t), a);
  }

  /** A change at one anchor: it is enough that this one is in order. */
  lemma ChangedAt(s: State, t: State, a: nat)
    requires AnchorsOk(s) && OnlyAt(s, t, a) && (t.clean ==> s.clean) && AnchorOk(t, a)
    ensures AnchorsOk(t)
  {
    hide Pending, ChargeOf, CostOf, OwnOf, Stray, OnlyAt;
    forall x ensures AnchorOk(t, x) {
      assert AnchorOk(s, x);
      if x != a { SameFor(s, t, a, x); }
    }
  }

  // ---------------------------------------------------------------- a reservation

  /** Another anchor, or a settled one once more, in the ledger. */
  ghost predicate Takes(s: State, t: State, a: nat, b: nat) {
    && t.policy == s.policy && t.decisions == s.decisions && t.decidedIn == s.decidedIn && t.era == s.era && t.base == s.base
    && t.paid == (if a in s.paid then s.paid else s.paid[a := 0])
    && t.clean == (s.clean && a !in s.decisions)
    && a !in Pending(s) && Pending(t) == Pending(s)[a := b] && Spent(t) == Spent(s) + b
  }

  lemma TakesOnly(s: State, t: State, a: nat, b: nat)
    requires Takes(s, t, a, b)
    ensures OnlyAt(s, t, a)
  {
    hide Pending, Spent;
    assert Pending(s)[a := b] - {a} == Pending(s) - {a};
    assert s.paid[a := 0] - {a} == s.paid - {a};
  }

  lemma TakesAnchors(s: State, t: State, a: nat, b: nat)
    requires AnchorsOk(s) && Takes(s, t, a, b)
    ensures AnchorsOk(t)
  {
    hide Spent, Pending;
    TakesOnly(s, t, a, b);
    assert AnchorOk(s, a);
    assert AnchorOk(t, a);
    hide Takes, AnchorOk, OnlyAt;
    assert t.clean ==> s.clean by { TakesClean(s, t, a, b); }
    ChangedAt(s, t, a);
  }

  lemma TakesClean(s: State, t: State, a: nat, b: nat)
    requires Takes(s, t, a, b)
    ensures t.clean ==> s.clean
  {
  }

  /** The ledger after a reservation that continues it. */
  lemma ReserveMore(s: State, t: State, a: nat, b: nat)
    requires AccountsOk(s) && Takes(s, t, a, b) && b <= s.policy.sessionMax - Spent(s)
    ensures AccountsOk(t)
    ensures Cost(t) == Cost(s) + (if a in s.paid then 0 else if a in s.decisions then s.decisions[a] else b)
  {
    hide Pending, Spent, OnlyAt, AnchorsOk, ChargeMap, CostMap, OwnMap, Cost;
    TakesAnchors(s, t, a, b);
    TakesOnly(s, t, a, b);
    OwnCostBelowSpent(s);
    SumsChange(s, t, a);
    assert AnchorOk(s, a) by { AnchorsHave(s, a); }
  }

  lemma AnchorsHave(s: State, a: nat)
    requires AnchorsOk(s)
    ensures AnchorOk(s, a)
  {
  }

  /** The ledger of a new era. */
  ghost predicate StartsOver(s: State, t: State, a: nat, b: nat, used: set<nat>) {
    && used <= s.decisions.Keys && a !in used
    && t.policy == s.policy && t.decisions == s.decisions && t.decidedIn == s.decidedIn && t.era == s.era + 1 && t.base == used
    && t.paid == UsedMap(s, used)[a := 0] && t.clean == (a !in s.decisions)
    && Pending(t) == map[a := b] && Spent(t) == Used(s, used) + b
  }

  lemma StartsAnchors(s: State, t: State, a: nat, b: nat, used: set<nat>)
    requires AnchorsOk(s) && StartsOver(s, t, a, b, used)
    ensures AnchorsOk(t)
  {
    hide Pending, Spent, Used;
    forall x ensures AnchorOk(t, x) {
      assert AnchorOk(s, x);
    }
  }

  lemma StartsSums(s: State, t: State, a: nat, b: nat, used: set<nat>)
    requires StartsOver(s, t, a, b, used)
    ensures Sum(ChargeMap(t)) == Used(s, used) + b
    ensures Cost(t) == Used(s, used) + if a in s.decisions then s.decisions[a] else b
  {
    hide Pending, Spent, Stray;
    var start := UsedMap(s, used);
    var cost := if a in s.decisions then s.decisions[a] else b;
    assert ChargeMap(t) == start[a := b];
    assert CostMap(t) == start[a := cost];
    SumChange(start, start[a := b], a);
    SumChange(start, start[a := cost], a);
  }

  lemma ReserveFirst(s: State, t: State, a: nat, b: nat, used: set<nat>)
    requires AnchorsOk(s) && StartsOver(s, t, a, b, used) && Used(s, used) + b <= s.policy.sessionMax
    ensures AccountsOk(t)
    ensures Cost(t) == Used(s, used) + if a in s.decisions then s.decisions[a] else b
  {
    StartsAnchors(s, t, a, b, used);
    StartsSums(s, t, a, b, used);
    hide AnchorsOk, Pending, Spent, Used, ChargeMap, CostMap, OwnMap;
    OwnCostBelowSpent(t);
  }

  /** A request that asks gets at most what the budget leaves. */
  lemma AskIsBounded(o: Option<Observation>, policy: Policy, anchor: nat, window: nat, used: nat)
    requires OfferOf(o, policy, anchor, window, used).Ask?
    ensures var b := OfferOf(o, policy, anchor, window, used).budget;
            b <= policy.sessionMax - Current(o, window, used).spent && b >= LEAST_BUDGET
  {
  }

  lemma RequestsStand(s: State, t: State, id: nat)
    requires forall i :: i in s.requests ==> RequestOk(s, s.requests[i])
    requires id in t.requests && t.requests - {id} == s.requests - {id} && RequestOk(t, t.requests[id])
    requires s.decisions.Keys <= t.decisions.Keys && |s.stored| <= |t.stored|
    requires t.era == s.era || t.era == s.era + 1
    requires t.era == s.era ==> forall a, b :: Stands(s, a, b) ==> Stands(t, a, b)
    ensures forall i :: i in t.requests ==> RequestOk(t, t.requests[i])
  {
    hide Stands;
    forall i | i in t.requests ensures RequestOk(t, t.requests[i]) {
      if i != id {
        assert i in t.requests - {id} && i in s.requests - {id};
        assert (t.requests - {id})[i] == t.requests[i] && (s.requests - {id})[i] == s.requests[i];
        assert RequestOk(s, s.requests[i]);
      }
    }
  }

  /** Storing a document keeps the history as long as reservations are only given up once decided. */
  lemma StoreHistory(s: State, t: State, value: Observation)
    requires ErasOk(s) && HistoryOk(s)
    requires t.stored == s.stored + [value] && t.eras == s.eras + [t.era]
    requires t.era == s.era || t.era == s.era + 1
    requires t.era == s.era ==> forall a, b :: Stands(s, a, b) ==> Stands(t, a, b)
    requires Pending(t).Keys <= t.paid.Keys
    ensures ErasOk(t) && HistoryOk(t)
  {
    forall u, a | 0 <= u < |t.stored| && t.eras[u] == t.era && Pends(Some(t.stored[u]), a)
      ensures Stands(t, a, t.stored[u].ledger.value.pending[a])
    {
      if u < |s.stored| {
        assert t.stored[u] == s.stored[u] && t.eras[u] == s.eras[u];
        assert Stands(s, a, s.stored[u].ledger.value.pending[a]);
      }
    }
  }

  /** What a granted reservation does to the cost: `None` when nothing is stored. */
  ghost function Granted(s: State, id: nat): Option<nat>
    requires Enabled(s, Reserve(id))
  {
    var r := s.requests[id];
    var offer := OfferOf(ValueAt(s, r.version), s.policy, r.anchor, r.window, Used(s, r.used));
    if offer.Ask? && r.version == |s.stored| then Some(offer.budget) else None
  }

  /** The cost after a reservation: a decided anchor counts with its decision from then on. */
  ghost function CostReserved(s: State, id: nat): nat
    requires Enabled(s, Reserve(id))
  {
    var r := s.requests[id];
    if Granted(s, id).None? then Cost(s)
    else
      if !Continues(s, r.window) then Used(s, r.used) + TakenUp(s, id)
      else if r.anchor in s.paid then Cost(s) else Cost(s) + TakenUp(s, id)
  }

  /** What an anchor costs once the ledger takes it up. */
  ghost function TakenUp(s: State, id: nat): nat
    requires Enabled(s, Reserve(id)) && Granted(s, id).Some?
  {
    var a := s.requests[id].anchor;
    if a in s.decisions then s.decisions[a] else Granted(s, id).value
  }

  lemma ReserveKeeps(s: State, id: nat)
    requires Inv(s) && Enabled(s, Reserve(id))
    ensures Inv(DoReserve(s, id)) && Cost(DoReserve(s, id)) == CostReserved(s, id)
    ensures Granted(s, id).None? ==> Spent(DoReserve(s, id)) == Spent(s)
    ensures Granted(s, id).Some? ==> Spent(DoReserve(s, id)) <= s.policy.sessionMax
  {
    hide OfferOf, ChargeMap, AccountsOk, Cost;
    var r := s.requests[id];
    var offer := OfferOf(ValueAt(s, r.version), s.policy, r.anchor, r.window, Used(s, r.used));
    var t := DoReserve(s, id);
    assert RequestOk(s, r);
    if offer.Ask? && r.version == |s.stored| {
      AskKeeps(s, id, offer.budget, offer.value);
    } else {
      SharedStands(s, r);
      Unstored(s, t);
      RequestsStand(s, t, id);
    }
  }

  /** The same accounts: nothing an anchor weighs has changed. */
  lemma SameAccounts(s: State, t: State)
    requires Pending(t) == Pending(s) && Spent(t) == Spent(s) && t.policy == s.policy && t.era == s.era
    requires t.base == s.base && t.paid == s.paid && t.decisions == s.decisions && t.decidedIn == s.decidedIn && t.clean == s.clean
    requires AccountsOk(s)
    ensures AccountsOk(t) && Cost(t) == Cost(s)
    ensures forall a, b :: Stands(s, a, b) ==> Stands(t, a, b)
  {
    hide Pending, Spent;
    assert ChargeMap(t) == ChargeMap(s) && CostMap(t) == CostMap(s) && OwnMap(t) == OwnMap(s);
    forall a ensures AnchorOk(t, a) {
      assert AnchorOk(s, a);
    }
    hide AnchorOk, ChargeMap, CostMap, OwnMap;
  }

  /** Only the requests changed. */
  lemma Unstored(s: State, t: State)
    requires t == s.(requests := t.requests) && Inv(s)
    ensures ErasOk(t) && HistoryOk(t) && AccountsOk(t) && Spent(t) == Spent(s) && Cost(t) == Cost(s)
    ensures forall a, b :: Stands(s, a, b) ==> Stands(t, a, b)
  {
    SameLatest(s, t);
    hide Pending, Spent, AccountsOk, Cost;
    SameAccounts(s, t);
  }

  /** A shared reservation is one of its document's era. */
  lemma SharedStands(s: State, r: Request)
    requires ErasOk(s) && HistoryOk(s) && r.Loaded? && r.version <= |s.stored|
    ensures var offer := OfferOf(ValueAt(s, r.version), s.policy, r.anchor, r.window, Used(s, r.used));
            offer.Shared? ==> r.version > 0 && s.eras[r.version - 1] <= s.era
                              && (s.eras[r.version - 1] == s.era ==> Stands(s, r.anchor, offer.budget))
  {
    var offer := OfferOf(ValueAt(s, r.version), s.policy, r.anchor, r.window, Used(s, r.used));
    if offer.Shared? {
      assert Pends(Some(s.stored[r.version - 1]), r.anchor);
    }
  }

  /** What a granted reservation stores. */
  ghost predicate Asked(s: State, t: State, id: nat, b: nat, value: Observation) {
    && id in s.requests && s.requests[id].Loaded?
    && t.stored == s.stored + [value] && t.eras == s.eras + [t.era]
    && t.requests == s.requests[id := Reserved(s.requests[id].anchor, b, |t.stored|, t.era)]
    && (if Continues(s, s.requests[id].window) then Takes(s, t, s.requests[id].anchor, b)
        else StartsOver(s, t, s.requests[id].anchor, b, s.requests[id].used))
  }

  lemma AskShape(s: State, id: nat, b: nat, value: Observation)
    requires Inv(s) && Enabled(s, Reserve(id)) && s.requests[id].version == |s.stored|
    requires OfferOf(Latest(s), s.policy, s.requests[id].anchor, s.requests[id].window, Used(s, s.requests[id].used))
          == Ask(b, value)
    ensures var t := DoReserve(s, id); Asked(s, t, id, b, value)
    ensures Continues(s, s.requests[id].window) ==> b <= s.policy.sessionMax - Spent(s)
    ensures !Continues(s, s.requests[id].window) ==> Used(s, s.requests[id].used) + b <= s.policy.sessionMax
    ensures Granted(s, id) == Some(b)
  {
    hide AccountsOk, Used, UsedMap, Cost, HistoryOk, Stands, ErasOk;
    var r, t := s.requests[id], DoReserve(s, id);
    assert RequestOk(s, r);
    assert Latest(t) == Some(value);
    AskIsBounded(Latest(s), s.policy, r.anchor, r.window, Used(s, r.used));
  }

  lemma AskAccounts(s: State, t: State, id: nat, b: nat, value: Observation)
    requires AccountsOk(s) && Asked(s, t, id, b, value)
    requires Continues(s, s.requests[id].window) ==> b <= s.policy.sessionMax - Spent(s)
    requires !Continues(s, s.requests[id].window) ==> Used(s, s.requests[id].used) + b <= s.policy.sessionMax
    ensures AccountsOk(t) && Spent(t) <= s.policy.sessionMax
    ensures t.era == s.era ==> forall a, c :: Stands(s, a, c) ==> Stands(t, a, c)
  {
    hide AccountsOk, AnchorsOk, Used, UsedMap, Cost, Pending, Spent;
    AccountsParts(s);
    if Continues(s, s.requests[id].window) {
      ReserveMore(s, t, s.requests[id].anchor, b);
    } else {
      ReserveFirst(s, t, s.requests[id].anchor, b, s.requests[id].used);
    }
  }

  lemma AskCosts(s: State, t: State, id: nat, b: nat, value: Observation)
    requires AccountsOk(s) && Enabled(s, Reserve(id)) && Granted(s, id) == Some(b) && Asked(s, t, id, b, value)
    requires Continues(s, s.requests[id].window) ==> b <= s.policy.sessionMax - Spent(s)
    requires !Continues(s, s.requests[id].window) ==> Used(s, s.requests[id].used) + b <= s.policy.sessionMax
    ensures Cost(t) == CostReserved(s, id)
  {
    hide AccountsOk, AnchorsOk, Used, UsedMap, Cost, Pending, Spent, Granted;
    AccountsParts(s);
    if Continues(s, s.requests[id].window) {
      ReserveMore(s, t, s.requests[id].anchor, b);
    } else {
      ReserveFirst(s, t, s.requests[id].anchor, b, s.requests[id].used);
    }
  }

  /** The request that asked holds a reservation that stands. */
  lemma AskStands(s: State, t: State, id: nat, b: nat, value: Observation)
    requires Asked(s, t, id, b, value)
    ensures id in t.requests && RequestOk(t, t.requests[id]) && t.requests - {id} == s.requests - {id}
    ensures s.decisions.Keys <= t.decisions.Keys && (t.era == s.era || t.era == s.era + 1)
  {
    hide Used, UsedMap, Pending, Spent;
  }

  lemma AskKeeps(s: State, id: nat, b: nat, value: Observation)
    requires Inv(s) && Enabled(s, Reserve(id)) && s.requests[id].version == |s.stored|
    requires OfferOf(Latest(s), s.policy, s.requests[id].anchor, s.requests[id].window, Used(s, s.requests[id].used))
          == Ask(b, value)
    ensures Inv(DoReserve(s, id)) && Cost(DoReserve(s, id)) == CostReserved(s, id)
    ensures Spent(DoReserve(s, id)) <= s.policy.sessionMax
  {
    var t := DoReserve(s, id);
    AskShape(s, id, b, value);
    hide AccountsOk, Used, UsedMap, Cost, Granted, CostReserved, DoReserve, OfferOf, Takes, StartsOver, Stands, Pending, Spent, RequestOk;
    AskAccounts(s, t, id, b, value);
    AskCosts(s, t, id, b, value);
    AccountsParts(t);
    StoreHistory(s, t, value);
    AskStands(s, t, id, b, value);
    RequestsStand(s, t, id);
  }

  lemma AccountsParts(s: State)
    requires AccountsOk(s)
    ensures AnchorsOk(s) && BudgetOk(s) && Pending(s).Keys <= s.paid.Keys
  {
    forall a | a in Pending(s) ensures a in s.paid {
      assert AnchorOk(s, a);
    }
  }

  // ---------------------------------------------------------------- a decision

  /** A decision recorded under a reservation of some era, or without one. */
  ghost predicate Decides(s: State, t: State, a: nat, tokens: nat, era: Option<nat>) {
    && a !in s.decisions
    && (era.Some? ==> era.value <= s.era) && (era.None? ==> tokens == 0)
    && (era == Some(s.era) ==> a in s.paid && a in Pending(s) && tokens <= Pending(s)[a])
    && t.policy == s.policy && t.era == s.era && t.base == s.base && t.paid == s.paid
    && Pending(t) == Pending(s) && Spent(t) == Spent(s)
    && t.decisions == s.decisions[a := tokens]
    && t.decidedIn == (if era.Some? then s.decidedIn[a := era.value] else s.decidedIn)
    && t.clean == (s.clean && (era == Some(s.era) || a !in Pending(s)))
  }

  lemma DecidesOnly(s: State, t: State, a: nat, tokens: nat, era: Option<nat>)
    requires Decides(s, t, a, tokens, era)
    ensures OnlyAt(s, t, a) && (t.clean ==> s.clean)
  {
    hide Pending, Spent;
    assert t.decisions - {a} == s.decisions - {a} && t.decidedIn - {a} == s.decidedIn - {a};
  }

  lemma DecidesAnchors(s: State, t: State, a: nat, tokens: nat, era: Option<nat>)
    requires AnchorsOk(s) && Decides(s, t, a, tokens, era)
    ensures AnchorsOk(t)
  {
    hide Spent, Pending;
    DecidesOnly(s, t, a, tokens, era);
    assert AnchorOk(s, a);
    assert AnchorOk(t, a);
    hide Decides, AnchorOk, OnlyAt;
    ChangedAt(s, t, a);
  }

  lemma DecideCounts(s: State, t: State, a: nat, tokens: nat, era: Option<nat>)
    requires AccountsOk(s) && Decides(s, t, a, tokens, era)
    ensures AccountsOk(t)
    ensures Cost(t) == if a in Pending(s) then Cost(s) - Pending(s)[a] + tokens else Cost(s)
  {
    hide Spent, Pending, OnlyAt, AnchorsOk, ChargeMap, CostMap, OwnMap, Cost;
    DecidesAnchors(s, t, a, tokens, era);
    DecidesOnly(s, t, a, tokens, era);
    SumsChange(s, t, a);
    AnchorsHave(s, a);
  }

  lemma SameLatest(s: State, t: State)
    requires t.stored == s.stored
    ensures Pending(t) == Pending(s) && Spent(t) == Spent(s)
  {
  }

  /** The cost after a decision: its tokens replace the reservation, whoever made that. */
  ghost function CostDecided(s: State, id: nat, tokens: nat): int
    requires Enabled(s, Decide(id, tokens))
  {
    var a := s.requests[id].anchor;
    if a in s.decisions || a !in Pending(s) then Cost(s) else Cost(s) - Pending(s)[a] + tokens
  }

  lemma DecideAccounts(s: State, id: nat, tokens: nat)
    requires Inv(s) && Enabled(s, Decide(id, tokens)) && s.requests[id].anchor !in s.decisions
    ensures var t := DoDecide(s, id, tokens);
            && AccountsOk(t) && Cost(t) == CostDecided(s, id, tokens) && Spent(t) == Spent(s)
            && (forall a, b :: Stands(s, a, b) ==> Stands(t, a, b))
  {
    hide AccountsOk, Cost, HistoryOk;
    var r, t := s.requests[id], DoDecide(s, id, tokens);
    assert RequestOk(s, r);
    SameLatest(s, t);
    DecideCounts(s, t, r.anchor, tokens, if r.Reserved? then Some(r.era) else None);
  }

  lemma DecideKeeps(s: State, id: nat, tokens: nat)
    requires Inv(s) && Enabled(s, Decide(id, tokens))
    ensures Inv(DoDecide(s, id, tokens)) && Cost(DoDecide(s, id, tokens)) == CostDecided(s, id, tokens)
    ensures Spent(DoDecide(s, id, tokens)) == Spent(s)
  {
    hide AccountsOk, Cost, Stands;
    var r, t := s.requests[id], DoDecide(s, id, tokens);
    assert RequestOk(s, r);
    if r.anchor in s.decisions {
      Unstored(s, t);
    } else {
      DecideAccounts(s, id, tokens);
      assert ErasOk(t) && HistoryOk(t);
    }
    RequestsStand(s, t, id);
  }

  // ---------------------------------------------------------------- a settlement

  ghost predicate Pays(s: State, t: State, a: nat) {
    && a in s.decisions && a in Pending(s)
    && t.policy == s.policy && t.decisions == s.decisions && t.decidedIn == s.decidedIn && t.era == s.era && t.base == s.base
    && t.paid == s.paid[a := At(s.paid, a) + s.decisions[a]] && t.clean == s.clean
    && Pending(t) == Pending(s) - {a} && Spent(t) == Spent(s) - Pending(s)[a] + s.decisions[a]
  }

  lemma PaysOnly(s: State, t: State, a: nat)
    requires Pays(s, t, a)
    ensures OnlyAt(s, t, a) && t.clean == s.clean
  {
    hide Pending, Spent;
    assert Pending(t) - {a} == Pending(s) - {a};
    assert t.paid - {a} == s.paid - {a};
  }

  lemma PaysAnchors(s: State, t: State, a: nat)
    requires AnchorsOk(s) && Pays(s, t, a)
    ensures AnchorsOk(t)
  {
    hide Spent, Pending;
    PaysOnly(s, t, a);
    assert AnchorOk(s, a);
    assert AnchorOk(t, a);
    hide Pays, AnchorOk, OnlyAt;
    ChangedAt(s, t, a);
  }

  lemma SettleCounts(s: State, t: State, a: nat)
    requires AccountsOk(s) && Pays(s, t, a)
    ensures AccountsOk(t) && Cost(t) == Cost(s)
  {
    hide Spent, Pending, OnlyAt, AnchorsOk, ChargeMap, CostMap, OwnMap, Cost;
    PaysAnchors(s, t, a);
    PaysOnly(s, t, a);
    SumsChange(s, t, a);
    AnchorsHave(s, a);
  }

  /** A settlement that takes effect. */
  ghost predicate Settles(s: State, e: Event) {
    && e.Settle? && Enabled(s, e)
    && s.requests[e.id].version == |s.stored| && s.requests[e.id].anchor in Pending(s)
  }

  lemma SettleAccounts(s: State, id: nat)
    requires Inv(s) && Settles(s, Settle(id))
    ensures var t := DoSettle(s, id); var a := s.requests[id].anchor;
            && AccountsOk(t) && Cost(t) == Cost(s) && Spent(t) == Spent(s) - Pending(s)[a] + s.decisions[a]
            && (forall x, c :: Stands(s, x, c) ==> Stands(t, x, c))
            && t.stored == s.stored + [Settled(Latest(s).value, a, s.decisions[a])] && t.eras == s.eras + [s.era] && t.era == s.era
  {
    hide AccountsOk, Cost, HistoryOk;
    var r, t := s.requests[id], DoSettle(s, id);
    SettleCounts(s, t, r.anchor);
  }

  lemma SettleEffective(s: State, id: nat)
    requires Inv(s) && Settles(s, Settle(id))
    ensures Inv(DoSettle(s, id))
  {
    var t := DoSettle(s, id);
    assert id in t.requests && t.requests - {id} == s.requests - {id} && t.requests[id] == Done && t.decisions == s.decisions;
    SettleAccounts(s, id);
    hide AccountsOk, Cost, Stands, Spent, Pending, DoSettle, Settles;
    AccountsParts(t);
    StoreHistory(s, t, Last(t.stored));
    RequestsStand(s, t, id);
  }

  lemma SettleIdle(s: State, id: nat)
    requires Inv(s) && Enabled(s, Settle(id)) && !Settles(s, Settle(id))
    ensures Inv(DoSettle(s, id)) && Cost(DoSettle(s, id)) == Cost(s) && Spent(DoSettle(s, id)) == Spent(s)
  {
    hide AccountsOk, Cost, Stands, Spent;
    var t := DoSettle(s, id);
    assert RequestOk(s, s.requests[id]);
    Unstored(s, t);
    RequestsStand(s, t, id);
  }

  lemma SettleKeeps(s: State, id: nat)
    requires Inv(s) && Enabled(s, Settle(id))
    ensures Inv(DoSettle(s, id)) && Cost(DoSettle(s, id)) == Cost(s)
    ensures var a := s.requests[id].anchor;
            Spent(DoSettle(s, id)) == if Settles(s, Settle(id)) then Spent(s) - Pending(s)[a] + s.decisions[a] else Spent(s)
  {
    hide Inv, DoSettle, Cost, Spent, Pending;
    if Settles(s, Settle(id)) {
      SettleEffective(s, id);
      SettleAccounts(s, id);
    } else {
      SettleIdle(s, id);
    }
  }

  lemma ObserveKeeps(s: State, extra: nat)
    requires Inv(s)
    ensures var t := Step(s, Observe(extra)); Inv(t) && Spent(t) == Spent(s) && Cost(t) == Cost(s)
  {
    hide Used, AccountsOk, Cost;
    var t := Step(s, Observe(extra));
    assert Pending(t) == Pending(s) && Spent(t) == Spent(s);
    SameAccounts(s, t);
    AccountsParts(t);
    hide Stands, Pending;
    StoreHistory(s, t, Last(t.stored));
    assert forall id :: id in t.requests ==> RequestOk(t, t.requests[id]);
  }

  // ---------------------------------------------------------------- every run

  lemma LoadKeeps(s: State, e: Event)
    requires Inv(s) && Enabled(s, e) && e.Load?
    ensures var t := Step(s, e); Inv(t) && Spent(t) == Spent(s) && Cost(t) == Cost(s)
  {
    hide AccountsOk, Cost;
    Unstored(s, Step(s, e));
    RequestsStand(s, Step(s, e), e.id);
  }

  lemma StepKeeps(s: State, e: Event)
    requires Inv(s) && Enabled(s, e)
    ensures Inv(Step(s, e)) && Step(s, e).policy == s.policy
  {
    match e
    case Load(_, _, _, _, _) => hide Inv; LoadKeeps(s, e);
    case Reserve(id) => hide Inv; ReserveKeeps(s, id);
    case Decide(id, tokens) => hide Inv; DecideKeeps(s, id, tokens);
    case Settle(id) => hide Inv; SettleKeeps(s, id);
    case Observe(extra) => hide Inv; ObserveKeeps(s, extra);
  }

  lemma {:induction false} RunsKeep(s: State, events: seq<Event>)
    requires Inv(s) && Runs(s, events)
    ensures Inv(Outcome(s, events)) && Outcome(s, events).policy == s.policy
    decreases |events|
  {
    hide Inv, Step, Enabled;
    if events != [] {
      StepKeeps(s, events[0]);
      RunsKeep(Step(s, events[0]), events[1..]);
    }
  }

  lemma StartIsSound(policy: Policy)
    ensures Inv(Start(policy))
  {
    var s := Start(policy);
    assert ChargeMap(s) == map[] && OwnMap(s) == map[];
  }

  /** In every run: `spent` is exactly what was settled for the era's anchors and what is reserved. */
  lemma LedgerIsExact(policy: Policy, events: seq<Event>)
    requires Runs(Start(policy), events)
    ensures var s := Outcome(Start(policy), events); Spent(s) == Sum(ChargeMap(s))
  {
    hide Step, Enabled, Runs, Outcome;
    StartIsSound(policy);
    RunsKeep(Start(policy), events);
  }

  /** In every run: the distinct decisions on the anchors this era started from or reserved, whoever
      recorded them, and its undecided reservations stay within the session's cap, but for what requests of
      earlier eras decided on those anchors; and within the cap itself if none did. */
  lemma NeverOverspends(policy: Policy, events: seq<Event>)
    requires Runs(Start(policy), events)
    ensures var s := Outcome(Start(policy), events); Cost(s) <= policy.sessionMax + Strays(s)
    ensures var s := Outcome(Start(policy), events); (forall a :: a in s.paid ==> !Stray(s, a)) ==> Cost(s) <= policy.sessionMax
  {
    hide Step, Enabled, Runs, Outcome;
    StartIsSound(policy);
    RunsKeep(Start(policy), events);
    var s := Outcome(Start(policy), events);
    CostSplits(s);
    if forall a :: a in s.paid ==> !Stray(s, a) {
      assert OwnMap(s) == CostMap(s);
    }
  }

  // ---------------------------------------------------------------- when the cap is passed

  /** The steps that take the decisions past the cap: recording more than is reserved for the anchor and
      left over, or taking up an anchor whose decision, or else reservation, is more than is left. */
  ghost predicate Overspends(s: State, e: Event)
    requires Enabled(s, e)
  {
    match e
    case Decide(id, tokens) =>
      var a := s.requests[id].anchor;
      a !in s.decisions && a in Pending(s) && tokens - Pending(s)[a] > s.policy.sessionMax - Cost(s)
    case Reserve(id) =>
      var a := s.requests[id].anchor;
      && Granted(s, id).Some?
      && (if Continues(s, s.requests[id].window)
          then a !in s.paid && TakenUp(s, id) > s.policy.sessionMax - Cost(s)
          else a in s.decisions && s.decisions[a] > s.policy.sessionMax - Used(s, s.requests[id].used))
    case _ => false
  }

  /** The settlements that take `spent` past the cap: the decision exceeds the reservation and what is left
      over. */
  ghost predicate Overdraws(s: State, e: Event)
    requires Enabled(s, e)
  {
    Settles(s, e) && s.decisions[s.requests[e.id].anchor] - Pending(s)[s.requests[e.id].anchor] > s.policy.sessionMax - Spent(s)
  }

  /** A decision under a reservation of this era never overspends. */
  lemma OwnDecisionsFit(s: State, id: nat, tokens: nat)
    requires Inv(s) && Enabled(s, Decide(id, tokens)) && Cost(s) <= s.policy.sessionMax
    requires s.requests[id].Reserved? && s.requests[id].era == s.era
    ensures !Overspends(s, Decide(id, tokens))
  {
    hide Cost, Pending;
    assert RequestOk(s, s.requests[id]);
  }

  lemma CostLeavesAt(s: State, e: Event)
    requires Inv(s) && Enabled(s, e) && Cost(s) <= s.policy.sessionMax
    ensures Cost(Step(s, e)) > s.policy.sessionMax <==> Overspends(s, e)
  {
    hide Cost, Used;
    match e
    case Load(_, _, _, _, _) => hide Inv; LoadKeeps(s, e);
    case Reserve(id) => CostReservedAt(s, id);
    case Decide(id, tokens) => hide Inv; DecideKeeps(s, id, tokens);
    case Settle(id) => hide Inv; SettleKeeps(s, id);
    case Observe(extra) => hide Inv; ObserveKeeps(s, extra);
  }

  lemma CostReservedAt(s: State, id: nat)
    requires Inv(s) && Enabled(s, Reserve(id)) && Cost(s) <= s.policy.sessionMax
    ensures Cost(DoReserve(s, id)) > s.policy.sessionMax <==> Overspends(s, Reserve(id))
  {
    hide Cost, Used, Inv, DoReserve;
    ReserveKeeps(s, id);
    var r := s.requests[id];
    if Granted(s, id).Some? {
      AskIsBounded(ValueAt(s, r.version), s.policy, r.anchor, r.window, Used(s, r.used));
    }
  }

  lemma SpentLeavesAt(s: State, e: Event)
    requires Inv(s) && Enabled(s, e) && Spent(s) <= s.policy.sessionMax
    ensures Spent(Step(s, e)) > s.policy.sessionMax <==> Overdraws(s, e)
  {
    hide Cost, Used, Inv;
    match e
    case Load(_, _, _, _, _) => LoadKeeps(s, e);
    case Reserve(id) => ReserveKeeps(s, id);
    case Decide(id, tokens) => DecideKeeps(s, id, tokens);
    case Settle(id) => SettleKeeps(s, id);
    case Observe(extra) => ObserveKeeps(s, extra);
  }

  /** The cost stays within the cap all through a run. */
  ghost predicate CostWithin(s: State, events: seq<Event>)
    requires Runs(s, events)
    decreases |events|
  {
    Cost(s) <= s.policy.sessionMax && (events == [] || CostWithin(Step(s, events[0]), events[1..]))
  }

  ghost predicate NeverOver(s: State, events: seq<Event>)
    requires Runs(s, events)
    decreases |events|
  {
    events == [] || (!Overspends(s, events[0]) && NeverOver(Step(s, events[0]), events[1..]))
  }

  /** `spent` stays within the cap all through a run. */
  ghost predicate SpentWithin(s: State, events: seq<Event>)
    requires Runs(s, events)
    decreases |events|
  {
    Spent(s) <= s.policy.sessionMax && (events == [] || SpentWithin(Step(s, events[0]), events[1..]))
  }

  ghost predicate NeverDraws(s: State, events: seq<Event>)
    requires Runs(s, events)
    decreases |events|
  {
    events == [] || (!Overdraws(s, events[0]) && NeverDraws(Step(s, events[0]), events[1..]))
  }

  lemma {:induction false} CostLeavesOnlyAt(s: State, events: seq<Event>)
    requires Inv(s) && Runs(s, events) && Cost(s) <= s.policy.sessionMax
    ensures CostWithin(s, events) <==> NeverOver(s, events)
    decreases |events|
  {
    hide Inv, Step, Enabled, Cost, Overspends;
    if events != [] {
      StepKeeps(s, events[0]);
      CostLeavesAt(s, events[0]);
      if Cost(Step(s, events[0])) <= s.policy.sessionMax {
        CostLeavesOnlyAt(Step(s, events[0]), events[1..]);
      }
    }
  }

  lemma {:induction false} SpentLeavesOnlyAt(s: State, events: seq<Event>)
    requires Inv(s) && Runs(s, events) && Spent(s) <= s.policy.sessionMax
    ensures SpentWithin(s, events) <==> NeverDraws(s, events)
    decreases |events|
  {
    hide Inv, Step, Enabled, Spent, Overdraws;
    if events != [] {
      StepKeeps(s, events[0]);
      SpentLeavesAt(s, events[0]);
      if Spent(Step(s, events[0])) <= s.policy.sessionMax {
        SpentLeavesOnlyAt(Step(s, events[0]), events[1..]);
      }
    }
  }

  /** A run keeps the decisions within the cap all the way if and only if no step of it overspends. */
  lemma DecisionsWithinCap(policy: Policy, events: seq<Event>)
    requires Runs(Start(policy), events)
    ensures CostWithin(Start(policy), events) <==> NeverOver(Start(policy), events)
  {
    StartIsSound(policy);
    assert CostMap(Start(policy)) == map[];
    CostLeavesOnlyAt(Start(policy), events);
  }

  /** A run keeps `spent` within the cap all the way if and only if no settlement in it overdraws. */
  lemma SpentWithinCap(policy: Policy, events: seq<Event>)
    requires Runs(Start(policy), events)
    ensures SpentWithin(Start(policy), events) <==> NeverDraws(Start(policy), events)
  {
    StartIsSound(policy);
    SpentLeavesOnlyAt(Start(policy), events);
  }

  /** In particular, `spent` is within the cap as long as no decided anchor is reserved and none is decided
      from elsewhere. */
  lemma CleanLedgerIsExact(policy: Policy, events: seq<Event>)
    requires Runs(Start(policy), events) && Outcome(Start(policy), events).clean
    ensures var s := Outcome(Start(policy), events); Spent(s) == Sum(ChargeMap(s)) && Spent(s) <= policy.sessionMax
  {
    hide Step, Enabled, Runs, Outcome;
    StartIsSound(policy);
    RunsKeep(Start(policy), events);
  }

  // ---------------------------------------------------------------- two runs

  lemma {:induction false} RunsOn(s: State, events: seq<Event>, e: Event)
    requires Runs(s, events) && Enabled(Outcome(s, events), e)
    ensures Runs(s, events + [e]) && Outcome(s, events + [e]) == Step(Outcome(s, events), e)
    decreases |events|
  {
    hide Step, Enabled;
    if events == [] {
      assert (events + [e])[1..] == [];
    } else {
      assert (events + [e])[1..] == events[1..] + [e];
      RunsOn(Step(s, events[0]), events[1..], e);
    }
  }

  lemma StartRuns(s: State)
    ensures Runs(s, []) && Outcome(s, []) == s
  {
  }

  const Capped: Policy := Policy(100, 164)

  function Doc(window: nat, spent: int, pending: map<nat, nat>): Observation {
    Observation(Some(Ledger(window, spent, pending)), 0)
  }

  // Two requests for one anchor, the second of which read the records before the first decided.
  const Asked1: Observation := Doc(0, 100, map[7 := 100])
  const Paid1: Observation := Doc(0, 100, map[])
  const More1: Observation := Doc(0, 164, map[7 := 64])
  const Over1: Observation := Doc(0, 200, map[])

  function Twice(stored: seq<Observation>, eras: seq<nat>, decisions: map<nat, nat>, decidedIn: map<nat, nat>, first: Request,
                 second: Request, paid: map<nat, nat>, clean: bool): State
  {
    State(Capped, stored, eras, if eras == [] then 0 else 1, decisions, decidedIn, map[1 := first, 2 := second], {}, paid, clean)
  }

  const Fresh: State := Twice([], [], map[], map[], Loaded(7, 0, {}, 0), Loaded(7, 0, {}, 0), map[], true)
  const AskedOnce: State :=
    Twice([Asked1], [1], map[], map[], Reserved(7, 100, 1, 1), Loaded(7, 0, {}, 0), map[7 := 0], true)
  const PaidOnce: State :=
    Twice([Asked1, Paid1], [1, 1], map[7 := 100], map[7 := 1], Done, Loaded(7, 0, {}, 0), map[7 := 100], true)
  const AskedAgain: State :=
    Twice([Asked1, Paid1, More1], [1, 1, 1], map[7 := 100], map[7 := 1], Done, Reserved(7, 64, 3, 1), map[7 := 100], false)

  lemma FirstAsks()
    ensures Enabled(Fresh, Reserve(1)) && Step(Fresh, Reserve(1)) == AskedOnce
  {
    assert UsedMap(Fresh, {}) == map[];
    assert Fresh.requests[1 := Reserved(7, 100, 1, 1)] == AskedOnce.requests;
  }

  lemma FirstPays()
    ensures Enabled(AskedOnce, Decide(1, 100))
    ensures var s := Step(AskedOnce, Decide(1, 100)); Enabled(s, Settle(1)) && Step(s, Settle(1)) == PaidOnce
  {
    var s := Step(AskedOnce, Decide(1, 100));
    assert Settled(Asked1, 7, 100) == Paid1 by { assert Asked1.ledger.value.pending - {7} == map[]; }
    assert s.requests[1 := Done] == PaidOnce.requests;
    assert s.stored + [Paid1] == PaidOnce.stored && s.eras + [1] == PaidOnce.eras;
  }

  lemma SecondAsks()
    ensures Enabled(PaidOnce, Reserve(2))
    ensures var s := Step(PaidOnce, Reserve(2)); Enabled(s, Reserve(2)) && Step(s, Reserve(2)) == AskedAgain
  {
    assert UsedMap(PaidOnce, {}) == map[];
    var s := Set(PaidOnce, 2, Loaded(7, 0, {}, 2));
    assert Step(PaidOnce, Reserve(2)) == s;
    assert UsedMap(s, {}) == map[];
    assert OfferOf(Some(Paid1), Capped, 7, 0, 0) == Ask(64, More1) by { assert Paid1.ledger.value.pending[7 := 64] == map[7 := 64]; }
    assert s.requests[2 := Reserved(7, 64, 3, 1)] == AskedAgain.requests;
    assert s.stored + [More1] == AskedAgain.stored && s.eras + [1] == AskedAgain.eras;
  }

  lemma SecondPays()
    ensures Enabled(AskedAgain, Decide(2, 0))
    ensures var s := Step(AskedAgain, Decide(2, 0)); Enabled(s, Settle(2)) && Latest(Step(s, Settle(2))) == Some(Over1)
  {
    assert Settled(More1, 7, 100) == Over1 by { assert More1.ledger.value.pending - {7} == map[]; }
  }

  /** `spent` itself can pass the cap. */
  lemma SpentCanOvershoot() returns (events: seq<Event>)
    ensures Runs(Start(Capped), events)
    ensures Spent(Outcome(Start(Capped), events)) == 200 > Capped.sessionMax
  {
    var s0 := Start(Capped);
    var l1, l2 := Load(1, 7, 0, {}, 0), Load(2, 7, 0, {}, 0);
    assert Enabled(s0, l1) && Enabled(Step(s0, l1), l2) && Step(Step(s0, l1), l2) == Fresh by {
      assert map[][1 := Loaded(7, 0, {}, 0)][2 := Loaded(7, 0, {}, 0)] == Fresh.requests;
    }
    hide Runs, Outcome, Step, Enabled;
    StartRuns(s0);
    RunsOn(s0, [], l1);
    RunsOn(s0, [] + [l1], l2);
    FirstAsks();
    RunsOn(s0, [] + [l1] + [l2], Reserve(1));
    FirstPays();
    var e1 := [] + [l1] + [l2] + [Reserve(1)];
    RunsOn(s0, e1, Decide(1, 100));
    RunsOn(s0, e1 + [Decide(1, 100)], Settle(1));
    SecondAsks();
    var e2 := e1 + [Decide(1, 100)] + [Settle(1)];
    RunsOn(s0, e2, Reserve(2));
    RunsOn(s0, e2 + [Reserve(2)], Reserve(2));
    SecondPays();
    var e3 := e2 + [Reserve(2)] + [Reserve(2)];
    RunsOn(s0, e3, Decide(2, 0));
    RunsOn(s0, e3 + [Decide(2, 0)], Settle(2));
    events := e3 + [Decide(2, 0)] + [Settle(2)];
  }

  // Three requests, two for one anchor: the first reserves it in window 0 and decides it only after the
  // third has reserved it in window 1.
  const Early: Observation := Doc(0, 100, map[7 := 100])
  const Other: Observation := Doc(1, 100, map[8 := 100])
  const OtherPaid: Observation := Doc(1, 100, map[])
  const Late: Observation := Doc(1, 164, map[7 := 64])

  const EarlyAsked: State :=
    State(Capped, [Early], [1], 1, map[], map[], map[1 := Reserved(7, 100, 1, 1)], {}, map[7 := 0], true)
  const OtherAsked: State :=
    State(Capped, [Early, Other], [1, 2], 2, map[], map[], map[1 := Reserved(7, 100, 1, 1), 2 := Reserved(8, 100, 2, 2)],
          {}, map[8 := 0], true)
  const OtherDone: State :=
    State(Capped, [Early, Other, OtherPaid], [1, 2, 2], 2, map[8 := 100], map[8 := 2],
          map[1 := Reserved(7, 100, 1, 1), 2 := Done], {}, map[8 := 100], true)
  const LateAsked: State :=
    State(Capped, [Early, Other, OtherPaid, Late], [1, 2, 2, 2], 2, map[8 := 100], map[8 := 2],
          map[1 := Reserved(7, 100, 1, 1), 2 := Done, 3 := Reserved(7, 64, 4, 2)], {}, map[8 := 100, 7 := 0], true)

  lemma EarlyAsks()
    ensures var l := Load(1, 7, 0, {}, 0); var s := Start(Capped);
            Enabled(s, l) && Enabled(Step(s, l), Reserve(1)) && Step(Step(s, l), Reserve(1)) == EarlyAsked
  {
    var s := Step(Start(Capped), Load(1, 7, 0, {}, 0));
    assert UsedMap(s, {}) == map[];
    assert s.requests[1 := Reserved(7, 100, 1, 1)] == EarlyAsked.requests;
  }

  lemma OtherAsks()
    ensures var l := Load(2, 8, 1, {}, 1);
            Enabled(EarlyAsked, l) && Enabled(Step(EarlyAsked, l), Reserve(2)) && Step(Step(EarlyAsked, l), Reserve(2)) == OtherAsked
  {
    var s := Step(EarlyAsked, Load(2, 8, 1, {}, 1));
    assert UsedMap(s, {}) == map[];
    assert OfferOf(Some(Early), Capped, 8, 1, 0) == Ask(100, Other);
    assert s.requests[2 := Reserved(8, 100, 2, 2)] == OtherAsked.requests;
    assert s.stored + [Other] == OtherAsked.stored && s.eras + [2] == OtherAsked.eras;
  }

  lemma OtherPays()
    ensures Enabled(OtherAsked, Decide(2, 100))
    ensures var s := Step(OtherAsked, Decide(2, 100)); Enabled(s, Settle(2)) && Step(s, Settle(2)) == OtherDone
  {
    var s := Step(OtherAsked, Decide(2, 100));
    assert Settled(Other, 8, 100) == OtherPaid by { assert Other.ledger.value.pending - {8} == map[]; }
    assert s.requests[2 := Done] == OtherDone.requests;
    assert s.stored + [OtherPaid] == OtherDone.stored && s.eras + [2] == OtherDone.eras;
  }

  lemma LateAsks()
    ensures var l := Load(3, 7, 1, {}, 3);
            Enabled(OtherDone, l) && Enabled(Step(OtherDone, l), Reserve(3)) && Step(Step(OtherDone, l), Reserve(3)) == LateAsked
  {
    var s := Step(OtherDone, Load(3, 7, 1, {}, 3));
    assert UsedMap(s, {}) == map[];
    assert OfferOf(Some(OtherPaid), Capped, 7, 1, 0) == Ask(64, Late) by { assert OtherPaid.ledger.value.pending[7 := 64] == map[7 := 64]; }
    assert s.requests[3 := Reserved(7, 64, 4, 2)] == LateAsked.requests;
    assert s.stored + [Late] == LateAsked.stored && s.eras + [2] == LateAsked.eras;
  }

  lemma EarlyDecides()
    ensures Enabled(LateAsked, Decide(1, 100))
    ensures var s := Step(LateAsked, Decide(1, 100)); Cost(s) == 200 && Stray(s, 7)
  {
    var s := Step(LateAsked, Decide(1, 100));
    var m := CostMap(s);
    assert m == map[8 := 100, 7 := 100];
    SumRemove(m, 7);
    assert m - {7} == map[8 := 100];
    SumRemove(map[8 := 100], 8);
    assert map[8 := 100] - {8} == map[];
  }

  /** The decisions too can pass the cap, when a request of an earlier era decides an anchor that this era
      has reserved. */
  lemma DecisionsCanOverspend() returns (events: seq<Event>)
    ensures Runs(Start(Capped), events)
    ensures var s := Outcome(Start(Capped), events); Cost(s) == 200 > Capped.sessionMax && Stray(s, 7)
  {
    var s0 := Start(Capped);
    hide Runs, Outcome, Step, Enabled;
    StartRuns(s0);
    EarlyAsks();
    var l1, l2, l3 := Load(1, 7, 0, {}, 0), Load(2, 8, 1, {}, 1), Load(3, 7, 1, {}, 3);
    RunsOn(s0, [], l1);
    RunsOn(s0, [] + [l1], Reserve(1));
    OtherAsks();
    var e1 := [] + [l1] + [Reserve(1)];
    RunsOn(s0, e1, l2);
    RunsOn(s0, e1 + [l2], Reserve(2));
    OtherPays();
    var e2 := e1 + [l2] + [Reserve(2)];
    RunsOn(s0, e2, Decide(2, 100));
    RunsOn(s0, e2 + [Decide(2, 100)], Settle(2));
    LateAsks();
    var e3 := e2 + [Decide(2, 100)] + [Settle(2)];
    RunsOn(s0, e3, l3);
    RunsOn(s0, e3 + [l3], Reserve(3));
    EarlyDecides();
    RunsOn(s0, e3 + [l3] + [Reserve(3)], Decide(1, 100));
    events := e3 + [l3] + [Reserve(3)] + [Decide(1, 100)];
  }
}
