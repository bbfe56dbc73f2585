/**
 * The indexer's entity store: five row kinds (Permission, Payment, User, DailyStats and the
 * singleton Analytics row), the default rows the handlers create on first use, the UTC day
 * bucketing of timestamps, and the consistency invariant every handler preserves.
 *
 * Monetary amounts are arbitrary-precision naturals (the source keeps them as decimal strings
 * and adds them as BigInt; the string round trip is the identity). Counters are integers, so
 * that "never below zero" is a property of the handlers rather than of the type.
 */
module Entities {

  import opened Options

  /** Id of the single Analytics row. */
  const GLOBAL_ID: string := "global"

  const SECONDS_PER_DAY: int := 86400

  /** Block metadata delivered with every event. */
  datatype Block = Block(number: nat, timestamp: nat)

  datatype PermissionStatus = Active | Revoked

  datatype Permission = Permission(
    id: string,
    grantedAt: int,
    granter: string,
    sessionAccount: string,
    tokenAddress: string,
    permissionType: string,
    periodAmount: Option<nat>,
    periodDuration: Option<int>,
    amountPerSecond: Option<nat>,
    maxAmount: Option<nat>,
    expiry: int,
    context: string,
    status: PermissionStatus,
    createdAtBlock: int,
    createdAtTx: string)

  datatype Payment = Payment(
    id: string,
    permissionId: string,
    executedAt: int,
    from: string,
    to: string,
    amount: nat,
    tokenAddress: string,
    transactionHash: string,
    blockNumber: int)

  datatype User = User(
    id: string,
    totalPermissionsGranted: int,
    activePermissions: int,
    totalPaymentsSent: int,
    totalPaymentsReceived: int,
    totalVolumeSent: nat,
    totalVolumeReceived: nat,
    firstActivityAt: int,
    lastActivityAt: int)

  /** One UTC calendar day; `id` is the day number (see DayIndex). */
  datatype DailyStats = DailyStats(
    id: int,
    date: int,
    permissionsGranted: int,
    permissionsRevoked: int,
    paymentsExecuted: int,
    volume: nat,
    uniqueUsers: int)

  datatype Analytics = Analytics(
    id: string,
    totalPermissions: int,
    activePermissions: int,
    totalPayments: int,
    totalVolume: nat,
    uniqueUsers: int,
    lastUpdated: int)

  /** A snapshot of the whole entity store: one keyed table per entity kind. */
  datatype Store = Store(
    permissions: map<string, Permission>,
    payments: map<string, Payment>,
    users: map<string, User>,
    dailyStats: map<int, DailyStats>,
    analytics: map<string, Analytics>)

  const EmptyStore: Store := Store(map[], map[], map[], map[], map[])

  /**
   * The UTC day a unix timestamp falls in, as a day number since 1970-01-01.
   * This stands for the `YYYY-MM-DD` key of getDateString: two timestamps get the same
   * key exactly when they lie in the same 86400-second window starting at a UTC midnight.
   */
  function DayIndex(timestamp: int): (day: int)
    ensures SECONDS_PER_DAY * day <= timestamp < SECONDS_PER_DAY * day + SECONDS_PER_DAY
  {
    timestamp / SECONDS_PER_DAY
  }

  /** Timestamps share a day key exactly when they share a UTC day window. */
  lemma SameDayKey(t1: int, t2: int, day: int)
    requires SECONDS_PER_DAY * day <= t1 < SECONDS_PER_DAY * day + SECONDS_PER_DAY
    ensures DayIndex(t2) == DayIndex(t1) <==> SECONDS_PER_DAY * day <= t2 < SECONDS_PER_DAY * day + SECONDS_PER_DAY
  {
  }

  /** The set-once `firstActivityAt` latch: 0 means "not yet set". */
  function Latch(first: int, timestamp: int): (r: int)
    ensures first != 0 ==> r == first
    ensures first == 0 ==> r == timestamp
  {
    if first == 0 then timestamp else first
  }

  function NewAnalytics(): Analytics {
    Analytics(GLOBAL_ID, 0, 0, 0, 0, 0, 0)
  }

  function NewUser(address: string): User {
    User(address, 0, 0, 0, 0, 0, 0, 0, 0)
  }

  function NewDailyStats(day: int, timestamp: int): DailyStats {
    DailyStats(day, timestamp, 0, 0, 0, 0, 0)
  }

  /** getOrCreateAnalytics: the stored `"global"` row, or an all-zero one that is not yet stored. */
  function AnalyticsOf(t: map<string, Analytics>): (a: Analytics)
    ensures GLOBAL_ID in t ==> a == t[GLOBAL_ID]
    ensures GLOBAL_ID !in t ==>
      a.id == GLOBAL_ID && a.totalPermissions == a.activePermissions == a.totalPayments == 0
      && a.totalVolume == 0 && a.uniqueUsers == 0 && a.lastUpdated == 0
  {
    if GLOBAL_ID in t then t[GLOBAL_ID] else NewAnalytics()
  }

  /** getOrCreateUser: the stored row for `address`, or an all-zero one with that id. */
  function UserOf(t: map<string, User>, address: string): (u: User)
    ensures address in t ==> u == t[address]
    ensures address !in t ==>
      u.id == address && u.totalPermissionsGranted == u.activePermissions == 0
      && u.totalPaymentsSent == u.totalPaymentsReceived == 0
      && u.totalVolumeSent == u.totalVolumeReceived == 0
      && u.firstActivityAt == u.lastActivityAt == 0
  {
    if address in t then t[address] else NewUser(address)
  }

  /** getOrCreateDailyStats: the stored row for `day`, or a fresh one dated with the creating event's timestamp. */
  function DailyOf(t: map<int, DailyStats>, day: int, timestamp: int): (d: DailyStats)
    ensures day in t ==> d == t[day]
    ensures day !in t ==>
      d.id == day && d.date == timestamp && d.permissionsGranted == d.permissionsRevoked == 0
      && d.paymentsExecuted == 0 && d.volume == 0 && d.uniqueUsers == 0
  {
    if day in t then t[day] else NewDailyStats(day, timestamp)
  }

  predicate UserValid(u: User) {
    && 0 <= u.activePermissions <= u.totalPermissionsGranted
    && u.totalPaymentsSent >= 0
    && u.totalPaymentsReceived >= 0
  }

  predicate DailyValid(d: DailyStats) {
    && d.permissionsGranted >= 0
    && d.permissionsRevoked >= 0
    && d.paymentsExecuted >= 0
    && d.uniqueUsers >= 0
  }

  predicate AnalyticsValid(a: Analytics) {
    && 0 <= a.activePermissions <= a.totalPermissions
    && a.totalPayments >= 0
    && a.uniqueUsers >= 0
  }

  predicate PermissionsValid(m: map<string, Permission>) {
    forall c :: c in m ==> m[c].id == c
  }

  predicate PaymentsValid(m: map<string, Payment>) {
    forall p :: p in m ==> m[p].id == p
  }

  predicate UsersValid(m: map<string, User>) {
    forall a :: a in m ==> m[a].id == a && UserValid(m[a])
  }

  predicate DailyStatsValid(m: map<int, DailyStats>) {
    forall d :: d in m ==> m[d].id == d && DailyValid(m[d])
  }

  predicate AnalyticsTableValid(m: map<string, Analytics>) {
    forall g :: g in m ==> g == GLOBAL_ID && m[g].id == g && AnalyticsValid(m[g])
  }

  /**
   * Every row is stored under its own id, the only Analytics row is `"global"`, and no counter
   * is negative; active-permission counters never exceed the matching grant totals.
   */
  predicate Valid(s: Store) {
    && PermissionsValid(s.permissions)
    && PaymentsValid(s.payments)
    && UsersValid(s.users)
    && DailyStatsValid(s.dailyStats)
    && AnalyticsTableValid(s.analytics)
  }

  /** The store the indexer starts from satisfies the invariant. */
  lemma EmptyStoreValid()
    ensures Valid(EmptyStore)
  {
  }

  /** `after` is `before` with rows for `keys` inserted or replaced, and nothing else changed. */
  ghost predicate UpsertedOnly<K(!new), V>(before: map<K, V>, after: map<K, V>, keys: set<K>) {
    && after.Keys == before.Keys + keys
    && forall k :: k in before && k !in keys ==> k in after && after[k] == before[k]
  }
}
