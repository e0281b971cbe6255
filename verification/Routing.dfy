/** Choice of a route target: eligibility, the mode groups, failover and weighted choice. */
module Routing {
  import opened Credentials

  datatype Mode = ModeUnset | ModeWeighted | ModeFailover | ModeConditional | ModeOther(name: string)

  datatype Strategy =
    | StrategyUnset
    | Auto
    | PreferWeighted
    | PreferConditional
    | PreferFailover
    | StrategyOther(name: string)

  datatype Target = Target(
    providerRef: string,
    mode: Mode,
    weight: int,
    priority: int,
    models: seq<string>,
    requireStreaming: Option<bool>,
    disabled: bool)

  datatype Request = Request(model: string, stream: bool)

  datatype Route = Route(targets: seq<Target>, strategy: Strategy, fallback: bool)

  // ----- eligibility and groups

  /** matchesConditions */
  predicate Matches(t: Target, req: Request) {
    && (t.models == [] || req.model == "" || req.model in t.models)
    && (t.requireStreaming.None? || t.requireStreaming.value == req.stream)
  }

  predicate Eligible(t: Target, req: Request) {
    !t.disabled && t.providerRef != "" && Matches(t, req)
  }

  datatype Group = Weighted | Conditional | Failover | Other

  function GroupOf(m: Mode): Group {
    match m
    case ModeFailover => Failover
    case ModeConditional => Conditional
    case ModeWeighted => Weighted
    case ModeUnset => Weighted
    case ModeOther(_) => Other
  }

  function Select(ts: seq<Target>, req: Request, g: Group): (r: seq<Target>)
    ensures forall t :: t in r <==> t in ts && Eligible(t, req) && GroupOf(t.mode) == g
  {
    if ts == [] then []
    else
      var rest := Select(ts[..|ts| - 1], req, g);
      var t := ts[|ts| - 1];
      assert ts == ts[..|ts| - 1] + [t];
      if Eligible(t, req) && GroupOf(t.mode) == g then rest + [t] else rest
  }

  function EligibleOf(ts: seq<Target>, req: Request): (r: seq<Target>)
    ensures forall t :: t in r <==> t in ts && Eligible(t, req)
  {
    if ts == [] then []
    else
      var rest := EligibleOf(ts[..|ts| - 1], req);
      var t := ts[|ts| - 1];
      assert ts == ts[..|ts| - 1] + [t];
      if Eligible(t, req) then rest + [t] else rest
  }

  /** Every eligible target, counted with repetitions, is in exactly one group. */
  lemma {:induction false} GroupsPartition(ts: seq<Target>, req: Request)
    ensures multiset(EligibleOf(ts, req)) ==
            multiset(Select(ts, req, Weighted)) + multiset(Select(ts, req, Conditional)) +
            multiset(Select(ts, req, Failover)) + multiset(Select(ts, req, Other))
  {
    if ts != [] {
      GroupsPartition(ts[..|ts| - 1], req);
    }
  }

  /** selectionOrder; an unset strategy has been replaced by Auto, which unknown ones follow too. */
  function SelectionOrder(strategy: Strategy, fallback: bool): (order: seq<Group>)
    ensures fallback ==> Weighted in order && Conditional in order && Failover in order && Other in order
  {
    match strategy
    case PreferWeighted => if fallback then [Weighted, Conditional, Failover, Other] else [Weighted]
    case PreferConditional => if fallback then [Conditional, Weighted, Failover, Other] else [Conditional]
    case PreferFailover => if fallback then [Failover, Weighted, Conditional, Other] else [Failover]
    case _ => if fallback then [Conditional, Weighted, Failover, Other] else [Conditional, Weighted]
  }

  /** The group a strategy is named after; without a name, targets with explicit conditions. */
  function Preferred(strategy: Strategy): Group {
    match strategy
    case PreferWeighted => Weighted
    case PreferFailover => Failover
    case _ => Conditional
  }

  // ----- weighted choice

  const INT_MAX: int := 0x7fff_ffff_ffff_ffff

  /** Two's complement wrap-around of a 64-bit int. */
  function Wrap(x: int): (r: int)
    ensures -INT_MAX - 1 <= r <= INT_MAX
    ensures -INT_MAX - 1 <= x <= INT_MAX ==> r == x
    ensures x >= 0 ==> r <= x
  {
    (x + INT_MAX + 1) % (2 * INT_MAX + 2) - INT_MAX - 1
  }

  lemma WrapAdd(a: int, b: int)
    ensures Wrap(Wrap(a) + b) == Wrap(a + b)
  {
  }

  function EffectiveWeight(t: Target): (w: int)
    ensures w >= 1
  {
    if t.weight <= 0 then 1 else t.weight
  }

  /** The weight of the first i targets. */
  function Before(ts: seq<Target>, i: nat): (s: int)
    requires i <= |ts|
    ensures s >= i
  {
    if i == 0 then 0 else Before(ts, i - 1) + EffectiveWeight(ts[i - 1])
  }

  function Sum(ts: seq<Target>): int {
    Before(ts, |ts|)
  }

  lemma {:induction false} BeforeMonotone(ts: seq<Target>, i: nat, j: nat)
    requires i <= j <= |ts|
    ensures Before(ts, i) + (j - i) <= Before(ts, j)
  {
    if i < j {
      BeforeMonotone(ts, i, j - 1);
    }
  }

  /** The draw falls into the target's interval. */
  predicate Covers(ts: seq<Target>, i: nat, draw: int) {
    i < |ts| && Before(ts, i) <= draw < Before(ts, i + 1)
  }

  lemma CoversUnique(ts: seq<Target>, i: nat, j: nat, draw: int)
    requires Covers(ts, i, draw) && Covers(ts, j, draw)
    ensures i == j
  {
    if i < j {
      BeforeMonotone(ts, i + 1, j);
    } else if j < i {
      BeforeMonotone(ts, j + 1, i);
    }
  }

  method TotalWeight(ts: seq<Target>) returns (total: int)
    ensures total == Wrap(Sum(ts))
  {
    total := 0;
    var i := 0;
    while i < |ts|
      invariant 0 <= i <= |ts| && total == Wrap(Before(ts, i))
    {
      WrapAdd(Before(ts, i), EffectiveWeight(ts[i]));
      total := Wrap(total + EffectiveWeight(ts[i]));
      i := i + 1;
    }
  }

  /**
   * chooseWeighted, returning the place of the chosen target; `intn` is the random source. With more than one
   * target and a positive total the walk always ends inside the list, in the interval of the draw.
   */
  method ChooseWeighted(ts: seq<Target>, intn: int -> int) returns (i: nat)
    requires ts != [] && forall n: int :: n > 0 ==> 0 <= intn(n) < n
    ensures i < |ts|
    ensures |ts| > 1 && Wrap(Sum(ts)) > 0 ==> Covers(ts, i, intn(Wrap(Sum(ts))))
    ensures |ts| == 1 || Wrap(Sum(ts)) <= 0 ==> i == 0
  {
    if |ts| == 1 {
      return 0;
    }
    var total := TotalWeight(ts);
    if total <= 0 {
      return 0;
    }
    var pick := intn(total);
    i := 0;
    while i < |ts|
      invariant 0 <= i <= |ts|
      invariant pick == intn(total) - Before(ts, i) && pick >= 0
    {
      if pick < EffectiveWeight(ts[i]) {
        return;
      }
      pick := pick - EffectiveWeight(ts[i]);
      i := i + 1;
    }
    assert false;
  }

  // ----- the shares

  predicate Between(a: int, x: int, b: int) {
    a <= x < b
  }

  function Range(a: int, b: int): set<int> {
    set x: int | a <= x < b && Between(a, x, b)
  }

  lemma {:induction false} RangeSize(a: int, b: int)
    ensures |Range(a, b)| == if a <= b then b - a else 0
    decreases b - a
  {
    if a < b {
      RangeSize(a, b - 1);
      assert Range(a, b) == Range(a, b - 1) + {b - 1};
    } else {
      assert Range(a, b) == {};
    }
  }

  /** The draws that choose target i. */
  function Draws(ts: seq<Target>, i: nat): set<int> {
    set d: int | 0 <= d < Wrap(Sum(ts)) && Covers(ts, i, d)
  }

  lemma DrawsSize(ts: seq<Target>, i: nat)
    requires i < |ts|
    ensures var total := Wrap(Sum(ts));
            |Draws(ts, i)| ==
            if total <= Before(ts, i) then 0
            else if total < Before(ts, i + 1) then total - Before(ts, i)
            else EffectiveWeight(ts[i])
  {
    var total := Wrap(Sum(ts));
    var end := if total < Before(ts, i + 1) then total else Before(ts, i + 1);
    assert Draws(ts, i) == Range(Before(ts, i), end);
    RangeSize(Before(ts, i), end);
  }

  /** Each target is chosen by exactly its effective weight of the draws, if and only if the sum fits an int. */
  lemma ExactShares(ts: seq<Target>)
    requires ts != []
    ensures (forall i :: 0 <= i < |ts| ==> |Draws(ts, i)| == if ts[i].weight <= 0 then 1 else ts[i].weight) <==>
            Sum(ts) <= INT_MAX
  {
    forall i | 0 <= i < |ts| ensures Sum(ts) <= INT_MAX ==> |Draws(ts, i)| == EffectiveWeight(ts[i]) {
      DrawsSize(ts, i);
      BeforeMonotone(ts, i, |ts|);
      BeforeMonotone(ts, i + 1, |ts|);
    }
    if Sum(ts) > INT_MAX {
      var last := |ts| - 1;
      DrawsSize(ts, last);
      assert |Draws(ts, last)| != EffectiveWeight(ts[last]);
    }
  }

  /** Two weights of 2^62 add up to a negative total: the first target is then always chosen. */
  lemma OverflowExample(a: Target, b: Target)
    requires a.weight == b.weight == 0x4000_0000_0000_0000
    ensures Wrap(Sum([a, b])) <= 0
  {
    assert Before([a, b], 1) == Before([a, b], 0) + EffectiveWeight(a);
    assert Sum([a, b]) == Before([a, b], 1) + EffectiveWeight(b);
  }

  // ----- the whole selection

  /** First place of minimal priority. */
  predicate FirstLowest(ts: seq<Target>, i: nat) {
    && i < |ts|
    && (forall j :: 0 <= j < |ts| ==> ts[i].priority <= ts[j].priority)
    && forall j :: 0 <= j < i ==> ts[i].priority < ts[j].priority
  }

  method LowestPriority(ts: seq<Target>) returns (i: nat)
    requires ts != []
    ensures FirstLowest(ts, i)
  {
    i := 0;
    var k := 1;
    while k < |ts|
      invariant i < k <= |ts|
      invariant forall j :: 0 <= j < k ==> ts[i].priority <= ts[j].priority
      invariant forall j :: 0 <= j < i ==> ts[i].priority < ts[j].priority
    {
      if ts[k].priority < ts[i].priority {
        i := k;
      }
      k := k + 1;
    }
  }

  /** The group the choice is made in: the first of the order that has members. */
  predicate DecidingGroup(r: Route, req: Request, k: nat) {
    var order := SelectionOrder(r.strategy, r.fallback);
    && k < |order|
    && Select(r.targets, req, order[k]) != []
    && forall j :: 0 <= j < k ==> Select(r.targets, req, order[j]) == []
  }

  method SplitTargets(ts: seq<Target>, req: Request)
    returns (count: nat, weighted: seq<Target>, conditional: seq<Target>, failover: seq<Target>, other: seq<Target>)
    ensures count == |EligibleOf(ts, req)|
    ensures weighted == Select(ts, req, Weighted) && conditional == Select(ts, req, Conditional)
    ensures failover == Select(ts, req, Failover) && other == Select(ts, req, Other)
  {
    count, weighted, conditional, failover, other := 0, [], [], [], [];
    var i := 0;
    while i < |ts|
      invariant 0 <= i <= |ts| && count == |EligibleOf(ts[..i], req)|
      invariant weighted == Select(ts[..i], req, Weighted) && conditional == Select(ts[..i], req, Conditional)
      invariant failover == Select(ts[..i], req, Failover) && other == Select(ts[..i], req, Other)
    {
      var t := ts[i];
      assert ts[..i + 1][..i] == ts[..i];
      if Eligible(t, req) {
        count := count + 1;
        match GroupOf(t.mode) {
          case Failover => failover := failover + [t];
          case Conditional => conditional := conditional + [t];
          case Weighted => weighted := weighted + [t];
          case Other => other := other + [t];
        }
      }
      i := i + 1;
    }
    assert ts[..i] == ts;
  }

  /** SelectTarget: None stands for the 502 error; k and i say where the answer was found. */
  method SelectTarget(r: Route, req: Request, intn: int -> int) returns (o: Option<Target>, ghost k: nat, ghost i: nat)
    requires forall n: int :: n > 0 ==> 0 <= intn(n) < n
    ensures o.Some? ==> Chosen(r, req, intn, k, i) && o.value == GroupAt(r, req, k)[i]
    ensures o.Some? ==> o.value in r.targets && Eligible(o.value, req)
    ensures o.Some? ==>
              && !o.value.disabled && o.value.providerRef != ""
              && (o.value.models == [] || req.model == "" || req.model in o.value.models)
              && (o.value.requireStreaming == None || o.value.requireStreaming == Some(req.stream))
    ensures o.Some? <==> Answerable(r, req)
    ensures o.Some? ==> RightMode(r, req, o.value.mode)
    ensures o.None? ==> forall l: nat :: !DecidingGroup(r, req, l)
  {
    k, i := 0, 0;
    var count, weighted, conditional, failover, other := SplitTargets(r.targets, req);
    var order := SelectionOrder(r.strategy, r.fallback);
    if count == 0 {
      forall l: nat ensures !DecidingGroup(r, req, l) {
        if l < |order| { NothingEligible(r.targets, req, order[l]); }
      }
      AnswerableIff(r, req);
      return None, k, i;
    }
    var groups := InOrder(order, weighted, conditional, failover, other);
    assert forall j :: 0 <= j < |order| ==> groups[j] == Select(r.targets, req, order[j]);
    var at := FirstWithMembers(groups);
    AnswerableIff(r, req);
    if at == |groups| {
      return None, k, i;
    }
    var place := ChooseIn(order[at], groups[at], intn);
    assert groups[at][place] in groups[at];
    AnswerMode(r, req, at, groups[at][place]);
    return Some(groups[at][place]), at, place;
  }

  function InOrder(order: seq<Group>, weighted: seq<Target>, conditional: seq<Target>, failover: seq<Target>,
                   other: seq<Target>): (groups: seq<seq<Target>>)
    ensures |groups| == |order|
  {
    seq(|order|, j requires 0 <= j < |order| =>
      match order[j]
      case Weighted => weighted
      case Conditional => conditional
      case Failover => failover
      case Other => other)
  }

  method FirstWithMembers(groups: seq<seq<Target>>) returns (at: nat)
    ensures at <= |groups| && (at < |groups| ==> groups[at] != [])
    ensures forall j :: 0 <= j < at ==> groups[j] == []
  {
    at := 0;
    while at < |groups| && groups[at] == []
      invariant 0 <= at <= |groups|
      invariant forall j :: 0 <= j < at ==> groups[j] == []
    {
      at := at + 1;
    }
  }

  /** Failover targets by priority, all others by weight. */
  method ChooseIn(g: Group, group: seq<Target>, intn: int -> int) returns (i: nat)
    requires group != [] && forall n: int :: n > 0 ==> 0 <= intn(n) < n
    ensures RightPlace(g, group, intn, i)
  {
    if g == Failover {
      i := LowestPriority(group);
    } else {
      i := ChooseWeighted(group, intn);
    }
  }

  predicate RightPlace(g: Group, group: seq<Target>, intn: int -> int, i: nat) {
    && i < |group|
    && if g == Failover then FirstLowest(group, i)
       else if |group| > 1 && Wrap(Sum(group)) > 0 then Covers(group, i, intn(Wrap(Sum(group))))
       else i == 0
  }

  function GroupAt(r: Route, req: Request, k: nat): seq<Target> {
    var order := SelectionOrder(r.strategy, r.fallback);
    if k < |order| then Select(r.targets, req, order[k]) else []
  }

  /** Place i of the deciding group is the one its mode calls for. */
  predicate Chosen(r: Route, req: Request, intn: int -> int, k: nat, i: nat) {
    DecidingGroup(r, req, k) && RightPlace(SelectionOrder(r.strategy, r.fallback)[k], GroupAt(r, req, k), intn, i)
  }

  lemma {:induction false} NothingEligible(ts: seq<Target>, req: Request, g: Group)
    requires EligibleOf(ts, req) == []
    ensures Select(ts, req, g) == []
  {
    if ts != [] {
      NothingEligible(ts[..|ts| - 1], req, g);
    }
  }

  lemma DecidingUnique(r: Route, req: Request, k: nat, l: nat)
    requires DecidingGroup(r, req, k) && DecidingGroup(r, req, l)
    ensures k == l
  {
  }

  /** Route, request and random numbers determine the answer. */
  lemma ChosenUnique(r: Route, req: Request, intn: int -> int, k: nat, i: nat, l: nat, j: nat)
    requires Chosen(r, req, intn, k, i) && Chosen(r, req, intn, l, j)
    ensures k == l && i == j
  {
    DecidingUnique(r, req, k, l);
    var group := GroupAt(r, req, k);
    if SelectionOrder(r.strategy, r.fallback)[k] != Failover && |group| > 1 && Wrap(Sum(group)) > 0 {
      CoversUnique(group, i, j, intn(Wrap(Sum(group))));
    } else if SelectionOrder(r.strategy, r.fallback)[k] == Failover {
      assert FirstLowest(group, i) && FirstLowest(group, j);
    }
  }

  /** Among failover targets the lowest priority number wins, and the first listed of equals. */
  lemma FailoverAnswer(r: Route, req: Request, intn: int -> int, k: nat, i: nat)
    requires Chosen(r, req, intn, k, i) && GroupAt(r, req, k)[i].mode == ModeFailover
    ensures var group := GroupAt(r, req, k);
            && (forall t :: t in r.targets && Eligible(t, req) && t.mode == ModeFailover ==>
                  group[i].priority <= t.priority)
            && forall j :: 0 <= j < i ==> group[i].priority < group[j].priority
  {
    var group := GroupAt(r, req, k);
    assert group[i] in group;
    forall t | t in r.targets && Eligible(t, req) && t.mode == ModeFailover
      ensures group[i].priority <= t.priority
    {
      assert t in group;
    }
  }

  lemma FallbackExtends(strategy: Strategy)
    ensures SelectionOrder(strategy, false) <= SelectionOrder(strategy, true)
  {
  }

  /** Fallback matters only where there is no answer without it: every answer found without it stays the answer. */
  lemma FallbackOnlyAdds(r: Route, req: Request, intn: int -> int, k: nat, i: nat, l: nat, j: nat)
    requires !r.fallback && Chosen(r, req, intn, k, i)
    requires Chosen(r.(fallback := true), req, intn, l, j)
    ensures k == l && i == j && GroupAt(r.(fallback := true), req, l)[j] == GroupAt(r, req, k)[i]
  {
    FallbackExtends(r.strategy);
    ChosenUnique(r.(fallback := true), req, intn, k, i, l, j);
  }

  /** Where the preferred mode has an eligible target, the answer is one of that mode. */
  lemma PreferredWins(r: Route, req: Request, intn: int -> int, k: nat, i: nat, t: Target)
    requires Chosen(r, req, intn, k, i)
    requires t in r.targets && Eligible(t, req) && GroupOf(t.mode) == Preferred(r.strategy)
    ensures GroupOf(GroupAt(r, req, k)[i].mode) == Preferred(r.strategy)
  {
    assert t in Select(r.targets, req, Preferred(r.strategy));
    DecidingUnique(r, req, k, 0);
    assert GroupAt(r, req, 0)[i] in Select(r.targets, req, Preferred(r.strategy));
  }

  // ----- the answer's mode

  /** Some target that may serve the request is of one of these modes. */
  predicate Offers(r: Route, req: Request, of: Mode -> bool) {
    exists t :: t in r.targets && of(t.mode)
                && !t.disabled && t.providerRef != ""
                && (t.models == [] || req.model == "" || req.model in t.models)
                && (t.requireStreaming == None || t.requireStreaming == Some(req.stream))
  }

  /** A mode that is not set counts as weighted. */
  predicate IsWeighted(m: Mode) {
    m == ModeWeighted || m == ModeUnset
  }

  predicate IsConditional(m: Mode) {
    m == ModeConditional
  }

  predicate IsFailover(m: Mode) {
    m == ModeFailover
  }

  predicate IsUnknown(m: Mode) {
    m.ModeOther?
  }

  lemma OffersIsSelect(r: Route, req: Request)
    ensures Offers(r, req, IsWeighted) <==> Select(r.targets, req, Weighted) != []
    ensures Offers(r, req, IsConditional) <==> Select(r.targets, req, Conditional) != []
    ensures Offers(r, req, IsFailover) <==> Select(r.targets, req, Failover) != []
    ensures Offers(r, req, IsUnknown) <==> Select(r.targets, req, Other) != []
  {
    OffersOne(r, req, IsWeighted, Weighted);
    OffersOne(r, req, IsConditional, Conditional);
    OffersOne(r, req, IsFailover, Failover);
    OffersOne(r, req, IsUnknown, Other);
  }

  lemma OffersOne(r: Route, req: Request, of: Mode -> bool, g: Group)
    requires forall m: Mode :: of(m) <==> GroupOf(m) == g
    ensures Offers(r, req, of) <==> Select(r.targets, req, g) != []
  {
    var group := Select(r.targets, req, g);
    if group != [] {
      assert group[0] in group;
    }
    if t :| t in r.targets && of(t.mode) && !t.disabled && t.providerRef != ""
            && (t.models == [] || req.model == "" || req.model in t.models)
            && (t.requireStreaming == None || t.requireStreaming == Some(req.stream)) {
      assert t in group;
    }
  }

  /** Without fallback only the named mode counts; without a name, conditional and weighted targets. */
  predicate Answerable(r: Route, req: Request) {
    if r.fallback then
      || Offers(r, req, IsWeighted) || Offers(r, req, IsConditional)
      || Offers(r, req, IsFailover) || Offers(r, req, IsUnknown)
    else
      match r.strategy
      case PreferWeighted => Offers(r, req, IsWeighted)
      case PreferConditional => Offers(r, req, IsConditional)
      case PreferFailover => Offers(r, req, IsFailover)
      case _ => Offers(r, req, IsConditional) || Offers(r, req, IsWeighted)
  }

  /**
   * The named mode first; of the rest, weighted before failover and conditional before failover, conditional before
   * weighted unless the strategy says otherwise, unknown modes last.
   */
  predicate RightMode(r: Route, req: Request, m: Mode) {
    match r.strategy
    case PreferWeighted =>
      if Offers(r, req, IsWeighted) then IsWeighted(m)
      else if Offers(r, req, IsConditional) then IsConditional(m)
      else if Offers(r, req, IsFailover) then IsFailover(m)
      else IsUnknown(m)
    case PreferFailover =>
      if Offers(r, req, IsFailover) then IsFailover(m)
      else if Offers(r, req, IsWeighted) then IsWeighted(m)
      else if Offers(r, req, IsConditional) then IsConditional(m)
      else IsUnknown(m)
    case _ =>
      if Offers(r, req, IsConditional) then IsConditional(m)
      else if Offers(r, req, IsWeighted) then IsWeighted(m)
      else if Offers(r, req, IsFailover) then IsFailover(m)
      else IsUnknown(m)
  }

  lemma SomeGroup(r: Route, req: Request)
    ensures (exists k: nat :: DecidingGroup(r, req, k)) <==>
            exists g :: g in SelectionOrder(r.strategy, r.fallback) && Select(r.targets, req, g) != []
  {
    var order := SelectionOrder(r.strategy, r.fallback);
    if k: nat :| DecidingGroup(r, req, k) {
      assert order[k] in order;
    }
    if g :| g in order && Select(r.targets, req, g) != [] {
      var k :| 0 <= k < |order| && order[k] == g;
      FirstNonEmpty(r, req, k);
    }
  }

  lemma AnswerableIff(r: Route, req: Request)
    ensures (exists k: nat :: DecidingGroup(r, req, k)) <==> Answerable(r, req)
  {
    OffersIsSelect(r, req);
    SomeGroup(r, req);
  }

  lemma AnswerMode(r: Route, req: Request, k: nat, t: Target)
    requires DecidingGroup(r, req, k) && t in GroupAt(r, req, k)
    ensures RightMode(r, req, t.mode)
  {
    OffersIsSelect(r, req);
    var order := SelectionOrder(r.strategy, r.fallback);
    assert GroupOf(t.mode) == order[k];
    assert k == 0 || Select(r.targets, req, order[0]) == [];
    assert k <= 1 || Select(r.targets, req, order[1]) == [];
    assert k <= 2 || Select(r.targets, req, order[2]) == [];
  }

  /** With fallback a target is found exactly when one is eligible. */
  lemma FallbackComplete(r: Route, req: Request)
    requires r.fallback
    ensures (exists k: nat :: DecidingGroup(r, req, k)) <==> EligibleOf(r.targets, req) != []
  {
    var order := SelectionOrder(r.strategy, r.fallback);
    if EligibleOf(r.targets, req) == [] {
      forall g: Group ensures Select(r.targets, req, g) == [] {
        NothingEligible(r.targets, req, g);
      }
    } else {
      var t := EligibleOf(r.targets, req)[0];
      assert t in Select(r.targets, req, GroupOf(t.mode));
      assert GroupOf(t.mode) in order;
      var k :| 0 <= k < |order| && order[k] == GroupOf(t.mode);
      FirstNonEmpty(r, req, k);
    }
  }

  lemma {:induction false} FirstNonEmpty(r: Route, req: Request, k: nat)
    requires k < |SelectionOrder(r.strategy, r.fallback)|
    requires Select(r.targets, req, SelectionOrder(r.strategy, r.fallback)[k]) != []
    ensures exists l: nat :: DecidingGroup(r, req, l)
    decreases k
  {
    var order := SelectionOrder(r.strategy, r.fallback);
    if j :| 0 <= j < k && Select(r.targets, req, order[j]) != [] {
      FirstNonEmpty(r, req, j);
    } else {
      assert DecidingGroup(r, req, k);
    }
  }

  /** Without fallback, only targets of the modes the strategy names count; one of another mode is not found. */
  lemma NoFallback(r: Route, req: Request)
    requires !r.fallback
    ensures (exists k: nat :: DecidingGroup(r, req, k)) <==>
            match r.strategy
            case PreferWeighted => Offers(r, req, IsWeighted)
            case PreferConditional => Offers(r, req, IsConditional)
            case PreferFailover => Offers(r, req, IsFailover)
            case _ => Offers(r, req, IsConditional) || Offers(r, req, IsWeighted)
  {
    AnswerableIff(r, req);
  }
}
