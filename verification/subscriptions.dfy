/**
 * The subscription hook: status transitions through the store's update action, the category
 * and active filters, the monthly spending total, and the record and store effect of creating
 * a subscription once the wallet has granted its permission.
 */
module Subscriptions {

  import opened Options
  import opened Text
  import opened Decimal
  import opened Seqs
  import opened Constants
  import opened Types
  import opened Wallet
  import opened WalletStore

  /** Thirty days in seconds: the length of a month in the spending estimate. */
  const SECONDS_PER_MONTH: int := 2592000

  // ----- status transitions -----

  function PauseSubscription(s: WalletState, id: string): (r: WalletState)
    ensures |r.subscriptions| == |s.subscriptions|
    ensures forall i :: 0 <= i < |s.subscriptions| ==>
      r.subscriptions[i] == if s.subscriptions[i].id == id then s.subscriptions[i].(status := Paused) else s.subscriptions[i]
    ensures r.(subscriptions := s.subscriptions) == s
  {
    StatusChange(s, id, Paused)
  }

  function ResumeSubscription(s: WalletState, id: string): (r: WalletState)
    ensures |r.subscriptions| == |s.subscriptions|
    ensures forall i :: 0 <= i < |s.subscriptions| ==>
      r.subscriptions[i] == if s.subscriptions[i].id == id then s.subscriptions[i].(status := Active) else s.subscriptions[i]
    ensures r.(subscriptions := s.subscriptions) == s
  {
    StatusChange(s, id, Active)
  }

  function CancelSubscription(s: WalletState, id: string): (r: WalletState)
    ensures |r.subscriptions| == |s.subscriptions|
    ensures forall i :: 0 <= i < |s.subscriptions| ==>
      r.subscriptions[i] == if s.subscriptions[i].id == id then s.subscriptions[i].(status := Cancelled) else s.subscriptions[i]
    ensures r.(subscriptions := s.subscriptions) == s
  {
    StatusChange(s, id, Cancelled)
  }

  /** `updateSubscription(id, { status })`: only the status of the matching entries changes. */
  function StatusChange(s: WalletState, id: string, status: SubscriptionStatus): (r: WalletState)
    ensures |r.subscriptions| == |s.subscriptions|
    ensures forall i :: 0 <= i < |s.subscriptions| ==>
      r.subscriptions[i] == if s.subscriptions[i].id == id then s.subscriptions[i].(status := status) else s.subscriptions[i]
    ensures r.(subscriptions := s.subscriptions) == s
  {
    var r := UpdateSubscription(s, id, StatusUpdate(status));
    assert forall i :: 0 <= i < |s.subscriptions| && s.subscriptions[i].id == id ==>
      r.subscriptions[i] == s.subscriptions[i].(status := status) by {
      forall i | 0 <= i < |s.subscriptions| && s.subscriptions[i].id == id {
        MergeStatus(s.subscriptions[i], status);
      }
    }
    r
  }

  /**
   * No transition checks the prior status: a cancelled subscription can be resumed, and then
   * every subscription with that id is active again with nothing else about it changed.
   */
  lemma ResumeAfterCancel(s: WalletState, id: string)
    ensures var r := ResumeSubscription(CancelSubscription(s, id), id);
      && |r.subscriptions| == |s.subscriptions|
      && forall i :: 0 <= i < |s.subscriptions| && s.subscriptions[i].id == id ==>
           r.subscriptions[i] == s.subscriptions[i].(status := Active)
  {
  }

  // ----- queries -----

  function InCategory(category: Category): Subscription -> bool {
    (sub: Subscription) => sub.category == category
  }

  function IsActive(sub: Subscription): bool {
    sub.status == Active
  }

  /** The subscriptions of one category, in their original order. */
  function GetSubscriptionsByCategory(subs: seq<Subscription>, category: Category): (r: seq<Subscription>)
    ensures forall sub :: sub in r <==> sub in subs && sub.category == category
  {
    Filter(subs, InCategory(category))
  }

  /** The active subscriptions, in their original order. */
  function GetActiveSubscriptions(subs: seq<Subscription>): (r: seq<Subscription>)
    ensures forall sub :: sub in r <==> sub in subs && sub.status == Active
  {
    Filter(subs, IsActive)
  }

  /** Both queries keep every selected entry as often as it occurs, and nothing else. */
  lemma QueriesExact(subs: seq<Subscription>, category: Category)
    ensures forall sub ::
      multiset(GetSubscriptionsByCategory(subs, category))[sub] == (if sub.category == category then multiset(subs)[sub] else 0)
    ensures forall sub ::
      multiset(GetActiveSubscriptions(subs))[sub] == (if sub.status == Active then multiset(subs)[sub] else 0)
  {
    FilterMultiplicity(subs, InCategory(category));
    FilterMultiplicity(subs, IsActive);
  }

  // ----- monthly spending -----

  /** A truthy optional number: present and not zero. */
  predicate Truthy(n: Option<int>) {
    n.Some? && n.value != 0
  }

  /**
   * `Math.floor(2592000 / duration)`: how many whole periods of `duration` seconds fit in 30
   * days (the float quotient of two integers below 2^53 floors to the integer quotient).
   */
  function PeriodsPerMonth(duration: int): (n: int)
    requires duration != 0
    ensures duration > 0 ==> n >= 0 && duration * n <= SECONDS_PER_MONTH < duration * n + duration
  {
    FloorDiv(SECONDS_PER_MONTH, duration)
  }

  /** Hourly, daily, weekly, monthly and yearly periods fit 720, 30, 4, 1 and 0 times. */
  lemma PeriodsPerMonthOfPresets()
    ensures PeriodsPerMonth(PERIOD_HOURLY) == 720
    ensures PeriodsPerMonth(PERIOD_DAILY) == 30
    ensures PeriodsPerMonth(PERIOD_WEEKLY) == 4
    ensures PeriodsPerMonth(PERIOD_MONTHLY) == 1
    ensures PeriodsPerMonth(PERIOD_YEARLY) == 0
  {
  }

  /**
   * One subscription's monthly equivalent: a periodic one pays its amount once per whole
   * period that fits in 30 days, a stream one pays its rate for 30 days, and one without a
   * non-zero amount (or a non-zero duration) contributes nothing.
   */
  function MonthlyAmount(sub: Subscription): (r: int)
    ensures sub.paymentType == Periodic && Truthy(sub.periodAmount) && Truthy(sub.periodDuration) ==>
      r == sub.periodAmount.value * PeriodsPerMonth(sub.periodDuration.value)
    ensures sub.paymentType == Stream && Truthy(sub.amountPerSecond) ==>
      r == sub.amountPerSecond.value * SECONDS_PER_MONTH
    ensures
      && (sub.paymentType == Periodic ==> !Truthy(sub.periodAmount) || !Truthy(sub.periodDuration))
      && (sub.paymentType == Stream ==> !Truthy(sub.amountPerSecond))
      ==> r == 0
  {
    if sub.paymentType == Periodic && Truthy(sub.periodAmount) && Truthy(sub.periodDuration) then
      sub.periodAmount.value * PeriodsPerMonth(sub.periodDuration.value)
    else if sub.paymentType == Stream && Truthy(sub.amountPerSecond) then
      sub.amountPerSecond.value * SECONDS_PER_MONTH
    else
      0
  }

  /** The left-to-right running total of `reduce`. */
  function Total(subs: seq<Subscription>): (r: int) {
    if subs == [] then 0 else Total(subs[..|subs| - 1]) + MonthlyAmount(subs[|subs| - 1])
  }

  /** calculateMonthlySpending: the total of the active subscriptions' monthly amounts. */
  function MonthlySpending(subs: seq<Subscription>): (r: int)
    ensures |GetActiveSubscriptions(subs)| == 0 ==> r == 0
  {
    Total(GetActiveSubscriptions(subs))
  }

  /** The total of a concatenation is the sum of the totals. */
  lemma {:induction false} TotalConcat(a: seq<Subscription>, b: seq<Subscription>)
    ensures Total(a + b) == Total(a) + Total(b)
  {
    if b != [] {
      assert (a + b)[..|a + b| - 1] == a + b[..|b| - 1];
      TotalConcat(a, b[..|b| - 1]);
    } else {
      assert a + b == a;
    }
  }

  /** Monthly spending distributes over concatenation of subscription lists. */
  lemma MonthlySpendingConcat(a: seq<Subscription>, b: seq<Subscription>)
    ensures MonthlySpending(a + b) == MonthlySpending(a) + MonthlySpending(b)
  {
    FilterConcat(a, b, IsActive);
    TotalConcat(GetActiveSubscriptions(a), GetActiveSubscriptions(b));
  }

  /** A subscription the estimate can count: no negative amount and no negative duration. */
  predicate WellFormed(sub: Subscription) {
    && (sub.periodAmount.Some? ==> sub.periodAmount.value >= 0)
    && (sub.periodDuration.Some? ==> sub.periodDuration.value >= 0)
    && (sub.amountPerSecond.Some? ==> sub.amountPerSecond.value >= 0)
  }

  lemma MonthlyAmountNonNegative(sub: Subscription)
    requires WellFormed(sub)
    ensures MonthlyAmount(sub) >= 0
  {
    if sub.paymentType == Periodic && Truthy(sub.periodAmount) && Truthy(sub.periodDuration) {
      var periods := PeriodsPerMonth(sub.periodDuration.value);
      assert sub.periodAmount.value * periods >= 0;
    }
  }

  lemma {:induction false} TotalNonNegative(subs: seq<Subscription>)
    requires forall sub :: sub in subs ==> WellFormed(sub)
    ensures Total(subs) >= 0
  {
    if subs != [] {
      TotalNonNegative(subs[..|subs| - 1]);
      MonthlyAmountNonNegative(subs[|subs| - 1]);
    }
  }

  /** With no negative amounts or durations the monthly total is never negative. */
  lemma MonthlySpendingNonNegative(subs: seq<Subscription>)
    requires forall sub :: sub in subs ==> WellFormed(sub)
    ensures MonthlySpending(subs) >= 0
  {
    TotalNonNegative(GetActiveSubscriptions(subs));
  }

  /**
   * A subscription that is not active never changes the total, wherever it sits; an active,
   * well-formed one never lowers it.
   */
  lemma MonthlySpendingInsert(front: seq<Subscription>, sub: Subscription, back: seq<Subscription>)
    ensures sub.status != Active ==>
      MonthlySpending(front + [sub] + back) == MonthlySpending(front + back)
    ensures sub.status == Active && WellFormed(sub) ==>
      MonthlySpending(front + [sub] + back) >= MonthlySpending(front + back)
  {
    MonthlySpendingConcat(front + [sub], back);
    MonthlySpendingConcat(front, [sub]);
    MonthlySpendingConcat(front, back);
    assert GetActiveSubscriptions([sub]) == if sub.status == Active then [sub] else [];
    if sub.status == Active && WellFormed(sub) {
      MonthlyAmountNonNegative(sub);
      assert Total([sub]) == MonthlyAmount(sub) by {
        assert [sub][..0] == [];
      }
    }
  }

  /** Taking one subscription out of the active state never raises its share of the total. */
  lemma StopOne(sub: Subscription, stopped: Subscription)
    requires WellFormed(sub)
    requires stopped == sub || (stopped.status != Active && stopped == sub.(status := stopped.status))
    ensures MonthlySpending([stopped]) <= MonthlySpending([sub])
  {
    assert [sub] == [] + [sub] + [] && [stopped] == [] + [stopped] + [];
    MonthlySpendingInsert([], sub, []);
    MonthlySpendingInsert([], stopped, []);
    if stopped.status == Active {
      assert [sub][..0] == [] && [stopped][..0] == [];
      assert GetActiveSubscriptions([stopped]) == [stopped] && GetActiveSubscriptions([sub]) == [sub];
    }
  }

  /** `subs` with the status of the entries carrying `id` set to `status`, built from the back. */
  function StopMatching(subs: seq<Subscription>, id: string, status: SubscriptionStatus): (r: seq<Subscription>)
    ensures |r| == |subs|
    ensures forall i :: 0 <= i < |subs| ==>
      r[i] == if subs[i].id == id then subs[i].(status := status) else subs[i]
  {
    if subs == [] then []
    else
      var last := subs[|subs| - 1];
      StopMatching(subs[..|subs| - 1], id, status) + [if last.id == id then last.(status := status) else last]
  }

  lemma {:induction false} StopMatchingTotal(subs: seq<Subscription>, id: string, status: SubscriptionStatus)
    requires status != Active
    requires forall i :: 0 <= i < |subs| ==> WellFormed(subs[i])
    ensures MonthlySpending(StopMatching(subs, id, status)) <= MonthlySpending(subs)
    decreases |subs|
  {
    if subs != [] {
      var n := |subs| - 1;
      var front, last := subs[..n], subs[n];
      StopMatchingTotal(front, id, status);
      SplitLast(subs);
      var stoppedLast := if last.id == id then last.(status := status) else last;
      assert StopMatching(subs, id, status) == StopMatching(front, id, status) + [stoppedLast];
      MonthlySpendingConcat(front, [last]);
      MonthlySpendingConcat(StopMatching(front, id, status), [stoppedLast]);
      StopOne(last, stoppedLast);
    }
  }

  /**
   * If `stopped` is `subs` with the status of the entries carrying `id` set to a non-active
   * status, the total does not grow.
   */
  lemma StoppedTotal(subs: seq<Subscription>, stopped: seq<Subscription>, id: string, status: SubscriptionStatus)
    requires status != Active
    requires forall sub :: sub in subs ==> WellFormed(sub)
    requires |stopped| == |subs|
    requires forall i :: 0 <= i < |subs| ==>
      stopped[i] == if subs[i].id == id then subs[i].(status := status) else subs[i]
    ensures MonthlySpending(stopped) <= MonthlySpending(subs)
  {
    assert stopped == StopMatching(subs, id, status);
    StopMatchingTotal(subs, id, status);
  }

  /** Pausing or cancelling never raises the monthly total of well-formed subscriptions. */
  lemma PauseOrCancelNeverRaises(s: WalletState, id: string)
    requires forall sub :: sub in s.subscriptions ==> WellFormed(sub)
    ensures MonthlySpending(PauseSubscription(s, id).subscriptions) <= MonthlySpending(s.subscriptions)
    ensures MonthlySpending(CancelSubscription(s, id).subscriptions) <= MonthlySpending(s.subscriptions)
  {
    StoppedTotal(s.subscriptions, PauseSubscription(s, id).subscriptions, id, Paused);
    StoppedTotal(s.subscriptions, CancelSubscription(s, id).subscriptions, id, Cancelled);
  }

  // ----- createSubscription -----

  /**
   * The record createSubscription stores once the wallet has answered with `context` and
   * `expiry`. `nowMs` is the clock reading, `randomSuffix` the seven base-36 characters taken
   * from `Math.random()`, and `parseUnits` the unit parser.
   */
  function NewSubscription(
    params: CreateSubscriptionParams,
    nowMs: nat,
    randomSuffix: string,
    context: string,
    expiry: int,
    parseUnits: (string, nat) -> int): (sub: Subscription)
    ensures sub.status == Active && sub.totalPaid == Some(0) && sub.lastPayment.None?
    ensures sub.permissionContext == Some(context) && sub.expiry == expiry
    ensures sub.id == "sub_" + NatToString(nowMs) + "_" + randomSuffix
    ensures sub.startTime == sub.createdAt == nowMs / 1000
    ensures sub.periodAmount.Some? <==> params.paymentType == Periodic
    ensures sub.amountPerSecond.Some? <==> params.paymentType == Stream
    ensures sub.initialAmount.Some? <==> params.paymentType == Stream
    ensures sub.maxAmount.Some? <==> params.paymentType == Stream
    ensures sub.periodAmount.Some? ==> sub.periodAmount.value == parseUnits(OrString(params.periodAmount, "0"), USDC_DECIMALS)
    ensures sub.periodDuration == params.periodDuration
    ensures sub.name == params.name && sub.description == params.description && sub.category == params.category
    ensures sub.recipient == params.recipient && sub.tokenAddress == params.tokenAddress
    ensures sub.paymentType == params.paymentType
  {
    var periodic := params.paymentType == Periodic;
    var stream := params.paymentType == Stream;
    Subscription(
      id := "sub_" + NatToString(nowMs) + "_" + randomSuffix,
      name := params.name,
      description := params.description,
      category := params.category,
      recipient := params.recipient,
      tokenAddress := params.tokenAddress,
      paymentType := params.paymentType,
      periodAmount := if periodic then Some(parseUnits(OrString(params.periodAmount, "0"), USDC_DECIMALS)) else None,
      periodDuration := params.periodDuration,
      amountPerSecond := if stream then Some(parseUnits(OrString(params.amountPerSecond, "0"), USDC_DECIMALS)) else None,
      initialAmount := if stream then Some(parseUnits(OrString(params.initialAmount, "0"), USDC_DECIMALS)) else None,
      maxAmount := if stream then Some(parseUnits(OrString(params.maxAmount, "0"), USDC_DECIMALS)) else None,
      startTime := nowMs / 1000,
      expiry := expiry,
      createdAt := nowMs / 1000,
      status := Active,
      permissionContext := Some(context),
      totalPaid := Some(0),
      lastPayment := None)
  }

  /**
   * The store effect of createSubscription: the session account is initialised (stored when
   * there was none, `newAccount` being the key pair that would be generated), then the new
   * subscription is appended, then the granted permission carrying the request that was sent
   * for that account. `requestMs` is the clock reading when the request was built and `nowMs`
   * the one after the wallet answered.
   */
  function CreateSubscription(
    s: WalletState,
    params: CreateSubscriptionParams,
    newAccount: SessionAccount,
    requestMs: nat,
    nowMs: nat,
    randomSuffix: string,
    context: string,
    expiry: int,
    parseUnits: (string, nat) -> int): (r: WalletState)
    ensures var account := if s.sessionAccount.Some? then s.sessionAccount.value else newAccount;
      && r.sessionAccount == Some(account)
      && r.grantedPermissions == s.grantedPermissions
        + [GrantedPermission(context, expiry, [BuildPermissionRequest(params, account.address, requestMs, parseUnits)])]
    ensures r.subscriptions == s.subscriptions + [NewSubscription(params, nowMs, randomSuffix, context, expiry, parseUnits)]
    ensures r.(subscriptions := s.subscriptions, grantedPermissions := s.grantedPermissions,
               sessionAccount := s.sessionAccount) == s
  {
    var (s1, account) := InitSessionAccount(s, newAccount);
    var grant := BuildPermissionRequest(params, account.address, requestMs, parseUnits);
    var sub := NewSubscription(params, nowMs, randomSuffix, context, expiry, parseUnits);
    AddGrantedPermission(AddSubscription(s1, sub), GrantedPermission(context, expiry, [grant]))
  }

  /**
   * A created subscription is active, so a well-formed one never lowers the monthly total,
   * and it can be found again among the active subscriptions.
   */
  lemma CreateSubscriptionCounts(
    s: WalletState,
    params: CreateSubscriptionParams,
    newAccount: SessionAccount,
    requestMs: nat,
    nowMs: nat,
    randomSuffix: string,
    context: string,
    expiry: int,
    parseUnits: (string, nat) -> int)
    ensures var sub := NewSubscription(params, nowMs, randomSuffix, context, expiry, parseUnits);
      var r := CreateSubscription(s, params, newAccount, requestMs, nowMs, randomSuffix, context, expiry, parseUnits);
      && sub in GetActiveSubscriptions(r.subscriptions)
      && (WellFormed(sub) ==> MonthlySpending(r.subscriptions) >= MonthlySpending(s.subscriptions))
  {
    var sub := NewSubscription(params, nowMs, randomSuffix, context, expiry, parseUnits);
    MonthlySpendingInsert(s.subscriptions, sub, []);
    assert s.subscriptions + [sub] + [] == s.subscriptions + [sub];
    assert s.subscriptions + [] == s.subscriptions;
  }
}
