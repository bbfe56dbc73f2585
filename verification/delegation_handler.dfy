/**
 * The delegation-manager event rules: PermissionGranted, PermissionRevoked and
 * DelegationExecuted. Each rule maps the store before the event to the store after it.
 * Within one handler the tables are independent, except that DelegationExecuted writes the
 * executor's User row before it reads the recipient's, which the rule reproduces.
 */
module DelegationHandler {

  import opened Options
  import opened Text
  import opened Decimal
  import opened Entities

  datatype PermissionGranted = PermissionGranted(
    granter: string,
    sessionAccount: string,
    context: string,
    expiry: nat,
    block: Block,
    txHash: string)

  datatype PermissionRevoked = PermissionRevoked(
    granter: string,
    context: string,
    block: Block,
    txHash: string)

  datatype DelegationExecuted = DelegationExecuted(
    context: string,
    executor: string,
    to: string,
    value: nat,
    block: Block,
    txHash: string,
    logIndex: nat)

  /** The Permission row a grant writes; token and terms are placeholders completed elsewhere. */
  function NewPermission(e: PermissionGranted): (p: Permission)
    ensures p.id == p.context == e.context
    ensures p.status == Active
    ensures IsLowercase(p.granter) && p.granter == Lowercase(e.granter)
    ensures IsLowercase(p.sessionAccount) && p.sessionAccount == Lowercase(e.sessionAccount)
    ensures p.grantedAt == e.block.timestamp && p.expiry == e.expiry
    ensures p.tokenAddress == "" && p.permissionType == "periodic"
    ensures p.periodAmount == p.periodDuration == p.amountPerSecond == p.maxAmount == None
  {
    Permission(
      id := e.context,
      grantedAt := e.block.timestamp,
      granter := Lowercase(e.granter),
      sessionAccount := Lowercase(e.sessionAccount),
      tokenAddress := "",
      permissionType := "periodic",
      periodAmount := None,
      periodDuration := None,
      amountPerSecond := None,
      maxAmount := None,
      expiry := e.expiry,
      context := e.context,
      status := Active,
      createdAtBlock := e.block.number,
      createdAtTx := e.txHash)
  }

  /** The Payment key `${txHash}-${logIndex}`. */
  function PaymentId(txHash: string, logIndex: nat): string {
    txHash + "-" + NatToString(logIndex)
  }

  /** Position of the first `c` in `x`, or `|x|` when there is none. */
  function FirstIndex(x: string, c: char): (i: nat)
    ensures i <= |x|
  {
    if x == [] then 0 else if x[0] == c then 0 else 1 + FirstIndex(x[1..], c)
  }

  lemma {:induction false} FirstIndexAfter(h: string, c: char, rest: string)
    requires c !in h
    ensures FirstIndex(h + [c] + rest, c) == |h|
  {
    if h != [] {
      assert (h + [c] + rest)[1..] == h[1..] + [c] + rest;
      FirstIndexAfter(h[1..], c, rest);
    }
  }

  /**
   * Two executions get distinct Payment keys unless they share both transaction hash and log
   * index, as long as hashes contain no `-` (they are hexadecimal).
   */
  lemma PaymentIdInjective(h1: string, i1: nat, h2: string, i2: nat)
    requires '-' !in h1 && '-' !in h2
    requires PaymentId(h1, i1) == PaymentId(h2, i2)
    ensures h1 == h2 && i1 == i2
  {
    var x := PaymentId(h1, i1);
    FirstIndexAfter(h1, '-', NatToString(i1));
    FirstIndexAfter(h2, '-', NatToString(i2));
    assert |h1| == |h2|;
    assert h1 == x[..|h1|] == h2;
    assert NatToString(i1) == x[|h1| + 1..] == NatToString(i2);
    NatToStringInjective(i1, i2);
  }

  /** The Payment row an execution writes; the token is a placeholder completed elsewhere. */
  function NewPayment(e: DelegationExecuted): (p: Payment)
    ensures p.id == PaymentId(e.txHash, e.logIndex)
    ensures p.amount == e.value && p.permissionId == e.context
    ensures p.from == Lowercase(e.executor) && p.to == Lowercase(e.to)
    ensures p.executedAt == e.block.timestamp && p.tokenAddress == ""
  {
    Payment(
      id := PaymentId(e.txHash, e.logIndex),
      permissionId := e.context,
      executedAt := e.block.timestamp,
      from := Lowercase(e.executor),
      to := Lowercase(e.to),
      amount := e.value,
      tokenAddress := "",
      transactionHash := e.txHash,
      blockNumber := e.block.number)
  }

  /** `Math.max(0, n - 1)`: the floor-at-zero decrement. */
  function DecrementFloor(n: int): (r: int)
    ensures r >= 0
    ensures n >= 1 ==> r == n - 1
    ensures n <= 1 ==> r == 0
  {
    if n - 1 >= 0 then n - 1 else 0
  }

  // ----- Permission table -----

  /** The grant writes the new Permission under its context, replacing any earlier row. */
  function PermissionsOnGrant(t: map<string, Permission>, e: PermissionGranted): (r: map<string, Permission>)
    ensures UpsertedOnly(t, r, {e.context})
    ensures r[e.context] == NewPermission(e)
    ensures PermissionsValid(t) ==> PermissionsValid(r)
  {
    t[e.context := NewPermission(e)]
  }

  /** The revoke marks an existing Permission revoked, whatever its status; a missing one is not created. */
  function PermissionsOnRevoke(t: map<string, Permission>, context: string): (r: map<string, Permission>)
    ensures r.Keys == t.Keys
    ensures forall c :: c in t && c != context ==> r[c] == t[c]
    ensures context in t ==> r[context] == t[context].(status := Revoked)
    ensures PermissionsValid(t) ==> PermissionsValid(r)
  {
    if context in t then t[context := t[context].(status := Revoked)] else t
  }

  // ----- Payment table -----

  /** The execution writes one Payment under `${txHash}-${logIndex}`. */
  function PaymentsOnExecute(t: map<string, Payment>, e: DelegationExecuted): (r: map<string, Payment>)
    ensures var id := PaymentId(e.txHash, e.logIndex);
      UpsertedOnly(t, r, {id}) && r[id] == NewPayment(e)
    ensures PaymentsValid(t) ==> PaymentsValid(r)
  {
    var payment := NewPayment(e);
    t[payment.id := payment]
  }

  // ----- Analytics table -----

  function AnalyticsOnGrant(t: map<string, Analytics>, timestamp: int): (r: map<string, Analytics>)
    ensures UpsertedOnly(t, r, {GLOBAL_ID})
    ensures var a := AnalyticsOf(t);
      r[GLOBAL_ID] == a.(totalPermissions := a.totalPermissions + 1,
                         activePermissions := a.activePermissions + 1,
                         lastUpdated := timestamp)
    ensures AnalyticsTableValid(t) ==> AnalyticsTableValid(r)
  {
    var a := AnalyticsOf(t);
    t[GLOBAL_ID := a.(totalPermissions := a.totalPermissions + 1,
                      activePermissions := a.activePermissions + 1,
                      lastUpdated := timestamp)]
  }

  function AnalyticsOnRevoke(t: map<string, Analytics>, timestamp: int): (r: map<string, Analytics>)
    ensures UpsertedOnly(t, r, {GLOBAL_ID})
    ensures var a := AnalyticsOf(t);
      r[GLOBAL_ID] == a.(activePermissions := DecrementFloor(a.activePermissions), lastUpdated := timestamp)
    ensures AnalyticsTableValid(t) ==> AnalyticsTableValid(r)
  {
    var a := AnalyticsOf(t);
    t[GLOBAL_ID := a.(activePermissions := DecrementFloor(a.activePermissions), lastUpdated := timestamp)]
  }

  function AnalyticsOnExecute(t: map<string, Analytics>, value: nat, timestamp: int): (r: map<string, Analytics>)
    ensures UpsertedOnly(t, r, {GLOBAL_ID})
    ensures var a := AnalyticsOf(t);
      r[GLOBAL_ID] == a.(totalPayments := a.totalPayments + 1,
                         totalVolume := a.totalVolume + value,
                         lastUpdated := timestamp)
    ensures AnalyticsTableValid(t) ==> AnalyticsTableValid(r)
  {
    var a := AnalyticsOf(t);
    t[GLOBAL_ID := a.(totalPayments := a.totalPayments + 1,
                      totalVolume := a.totalVolume + value,
                      lastUpdated := timestamp)]
  }

  // ----- User table -----

  /** The granter's row: one more grant, one more active permission, first activity latched. */
  function UsersOnGrant(t: map<string, User>, granter: string, timestamp: int): (r: map<string, User>)
    ensures UpsertedOnly(t, r, {granter})
    ensures var u := UserOf(t, granter);
      r[granter] == u.(totalPermissionsGranted := u.totalPermissionsGranted + 1,
                       activePermissions := u.activePermissions + 1,
                       firstActivityAt := Latch(u.firstActivityAt, timestamp),
                       lastActivityAt := timestamp)
    ensures UsersValid(t) ==> UsersValid(r)
  {
    var u := UserOf(t, granter);
    t[granter := u.(totalPermissionsGranted := u.totalPermissionsGranted + 1,
                    activePermissions := u.activePermissions + 1,
                    firstActivityAt := Latch(u.firstActivityAt, timestamp),
                    lastActivityAt := timestamp)]
  }

  /** The granter's row on revoke: one fewer active permission (never below zero); first activity untouched. */
  function UsersOnRevoke(t: map<string, User>, granter: string, timestamp: int): (r: map<string, User>)
    ensures UpsertedOnly(t, r, {granter})
    ensures var u := UserOf(t, granter);
      r[granter] == u.(activePermissions := DecrementFloor(u.activePermissions), lastActivityAt := timestamp)
    ensures UsersValid(t) ==> UsersValid(r)
  {
    var u := UserOf(t, granter);
    t[granter := u.(activePermissions := DecrementFloor(u.activePermissions), lastActivityAt := timestamp)]
  }

  /** The sender's half of an execution. */
  function SendRow(u: User, value: nat, timestamp: int): (u': User)
    ensures UserValid(u) ==> UserValid(u')
  {
    u.(totalPaymentsSent := u.totalPaymentsSent + 1,
       totalVolumeSent := u.totalVolumeSent + value,
       lastActivityAt := timestamp)
  }

  /** The receiver's half of an execution. */
  function ReceiveRow(u: User, value: nat, timestamp: int): (u': User)
    ensures UserValid(u) ==> UserValid(u')
  {
    u.(totalPaymentsReceived := u.totalPaymentsReceived + 1,
       totalVolumeReceived := u.totalVolumeReceived + value,
       firstActivityAt := Latch(u.firstActivityAt, timestamp),
       lastActivityAt := timestamp)
  }

  /**
   * The User table after an execution: the sender's row is written before the receiver's is
   * read, so when both are the same address that row gets both halves.
   */
  function UsersOnExecute(t: map<string, User>, from: string, to: string, value: nat, timestamp: int): (r: map<string, User>)
    ensures UpsertedOnly(t, r, {from, to})
    ensures UsersValid(t) ==> UsersValid(r)
  {
    var t1 := t[from := SendRow(UserOf(t, from), value, timestamp)];
    t1[to := ReceiveRow(UserOf(t1, to), value, timestamp)]
  }

  /**
   * The sender gains one payment sent and `value` volume sent; the receiver gains one payment
   * received and `value` volume received and latches its first activity (the sender's is left
   * alone). Both rows are stamped
   * with the event time. For distinct addresses each row gets only its own half; for a
   * self-payment the single row gets both.
   */
  lemma UsersOnExecuteRows(t: map<string, User>, from: string, to: string, value: nat, timestamp: int)
    ensures var r := UsersOnExecute(t, from, to, value, timestamp);
      var f, f', u, u' := UserOf(t, from), r[from], UserOf(t, to), r[to];
      && (from != to ==> f' == SendRow(f, value, timestamp) && u' == ReceiveRow(u, value, timestamp))
      && (from == to ==> u' == ReceiveRow(SendRow(f, value, timestamp), value, timestamp))
      && f'.totalPaymentsSent == f.totalPaymentsSent + 1
      && f'.totalVolumeSent == f.totalVolumeSent + value
      && u'.totalPaymentsReceived == u.totalPaymentsReceived + 1
      && u'.totalVolumeReceived == u.totalVolumeReceived + value
      && u'.firstActivityAt == Latch(u.firstActivityAt, timestamp)
      && (from != to ==> f'.firstActivityAt == f.firstActivityAt)
      && f'.lastActivityAt == u'.lastActivityAt == timestamp
  {
    var t1 := t[from := SendRow(UserOf(t, from), value, timestamp)];
    assert UsersOnExecute(t, from, to, value, timestamp) == t1[to := ReceiveRow(UserOf(t1, to), value, timestamp)];
    if from != to {
      assert UserOf(t1, to) == UserOf(t, to);
    }
  }

  // ----- DailyStats table -----

  function DailyOnGrant(t: map<int, DailyStats>, timestamp: int): (r: map<int, DailyStats>)
    ensures var day := DayIndex(timestamp);
      && UpsertedOnly(t, r, {day})
      && var d := DailyOf(t, day, timestamp);
      r[day] == d.(permissionsGranted := d.permissionsGranted + 1)
    ensures DailyStatsValid(t) ==> DailyStatsValid(r)
  {
    var day := DayIndex(timestamp);
    var d := DailyOf(t, day, timestamp);
    t[day := d.(permissionsGranted := d.permissionsGranted + 1)]
  }

  function DailyOnRevoke(t: map<int, DailyStats>, timestamp: int): (r: map<int, DailyStats>)
    ensures var day := DayIndex(timestamp);
      && UpsertedOnly(t, r, {day})
      && var d := DailyOf(t, day, timestamp);
      r[day] == d.(permissionsRevoked := d.permissionsRevoked + 1)
    ensures DailyStatsValid(t) ==> DailyStatsValid(r)
  {
    var day := DayIndex(timestamp);
    var d := DailyOf(t, day, timestamp);
    t[day := d.(permissionsRevoked := d.permissionsRevoked + 1)]
  }

  function DailyOnExecute(t: map<int, DailyStats>, value: nat, timestamp: int): (r: map<int, DailyStats>)
    ensures var day := DayIndex(timestamp);
      && UpsertedOnly(t, r, {day})
      && var d := DailyOf(t, day, timestamp);
      r[day] == d.(paymentsExecuted := d.paymentsExecuted + 1, volume := d.volume + value)
    ensures DailyStatsValid(t) ==> DailyStatsValid(r)
  {
    var day := DayIndex(timestamp);
    var d := DailyOf(t, day, timestamp);
    t[day := d.(paymentsExecuted := d.paymentsExecuted + 1, volume := d.volume + value)]
  }

  // ----- the three handlers -----

  /** PermissionGranted: the Payment table is untouched and the store invariant is kept. */
  function Grant(s: Store, e: PermissionGranted): (r: Store)
    ensures r.payments == s.payments
    ensures Valid(s) ==> Valid(r)
  {
    var ts := e.block.timestamp;
    Store(
      permissions := PermissionsOnGrant(s.permissions, e),
      payments := s.payments,
      users := UsersOnGrant(s.users, Lowercase(e.granter), ts),
      dailyStats := DailyOnGrant(s.dailyStats, ts),
      analytics := AnalyticsOnGrant(s.analytics, ts))
  }

  /** PermissionRevoked: the Payment table is untouched and the store invariant is kept. */
  function Revoke(s: Store, e: PermissionRevoked): (r: Store)
    ensures r.payments == s.payments
    ensures Valid(s) ==> Valid(r)
  {
    var ts := e.block.timestamp;
    Store(
      permissions := PermissionsOnRevoke(s.permissions, e.context),
      payments := s.payments,
      users := UsersOnRevoke(s.users, Lowercase(e.granter), ts),
      dailyStats := DailyOnRevoke(s.dailyStats, ts),
      analytics := AnalyticsOnRevoke(s.analytics, ts))
  }

  /** DelegationExecuted: the Permission table is untouched and the store invariant is kept. */
  function Execute(s: Store, e: DelegationExecuted): (r: Store)
    ensures r.permissions == s.permissions
    ensures Valid(s) ==> Valid(r)
  {
    var ts := e.block.timestamp;
    Store(
      permissions := s.permissions,
      payments := PaymentsOnExecute(s.payments, e),
      users := UsersOnExecute(s.users, Lowercase(e.executor), Lowercase(e.to), e.value, ts),
      dailyStats := DailyOnExecute(s.dailyStats, e.value, ts),
      analytics := AnalyticsOnExecute(s.analytics, e.value, ts))
  }
}
