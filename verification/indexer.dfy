/**
 * The indexer as a whole: events are delivered one at a time, in order, and each runs its
 * handler against the entity store. `Replay` is that fold over an event log; the lemmas
 * below are the properties that hold across any log. `EntityStore` is the mutable store the
 * handlers run against, one method per handler, each proved to perform the handler's rule.
 */
module Indexer {

  import opened Text
  import opened Entities
  import opened DelegationHandler
  import opened Erc20Handler

  datatype Event =
    | Granted(granted: PermissionGranted)
    | Revoked(revoked: PermissionRevoked)
    | Executed(executed: DelegationExecuted)
    | Transferred(transfer: TransferEvent)

  /**
   * The handler run for one event. Every handler keeps the store invariant; only an execution
   * writes a Payment, only a grant or a revoke writes a Permission, and a transfer touches
   * nothing but the User table.
   */
  function Apply(s: Store, ev: Event): (r: Store)
    ensures Valid(s) ==> Valid(r)
    ensures !ev.Executed? ==> r.payments == s.payments
    ensures !ev.Granted? && !ev.Revoked? ==> r.permissions == s.permissions
    ensures ev.Transferred? ==> r == s.(users := r.users)
  {
    match ev
    case Granted(e) => Grant(s, e)
    case Revoked(e) => Revoke(s, e)
    case Executed(e) => Execute(s, e)
    case Transferred(e) => Transfer(s, e)
  }

  /**
   * The store after delivering `events` in order, starting from `s`. The invariant holds after
   * any log delivered to a valid store; a log without executions leaves the Payment table as it
   * was, and one without grants or revokes the Permission table.
   */
  function Replay(s: Store, events: seq<Event>): (r: Store)
    ensures Valid(s) ==> Valid(r)
    ensures ExecutionCount(events) == 0 ==> r.payments == s.payments
    ensures GrantCount(events) + RevokeCount(events) == 0 ==> r.permissions == s.permissions
    decreases |events|
  {
    if events == [] then s else Replay(Apply(s, events[0]), events[1..])
  }

  /** Delivering a log that starts with `ev` is delivering `ev`, then the rest. */
  lemma ReplayCons(s: Store, ev: Event, rest: seq<Event>)
    ensures Replay(s, [ev] + rest) == Replay(Apply(s, ev), rest)
  {
    assert ([ev] + rest)[0] == ev;
    assert ([ev] + rest)[1..] == rest;
  }

  // ----- what a log contributes -----

  function GrantCount(events: seq<Event>): nat {
    if events == [] then 0 else (if events[0].Granted? then 1 else 0) + GrantCount(events[1..])
  }

  function RevokeCount(events: seq<Event>): nat {
    if events == [] then 0 else (if events[0].Revoked? then 1 else 0) + RevokeCount(events[1..])
  }

  function ExecutionCount(events: seq<Event>): nat {
    if events == [] then 0 else (if events[0].Executed? then 1 else 0) + ExecutionCount(events[1..])
  }

  /** Sum of the values of the executions in the log. */
  function ExecutedVolume(events: seq<Event>): nat {
    if events == [] then 0
    else (if events[0].Executed? then events[0].executed.value else 0) + ExecutedVolume(events[1..])
  }

  /** Sum of the values of the executions whose block falls in UTC day `day`. */
  function ExecutedVolumeOn(events: seq<Event>, day: int): nat {
    if events == [] then 0
    else
      (if events[0].Executed? && DayIndex(events[0].executed.block.timestamp) == day
       then events[0].executed.value else 0)
      + ExecutedVolumeOn(events[1..], day)
  }

  /** The volume recorded for `day`; a day without a row has none. */
  function DayVolume(t: map<int, DailyStats>, day: int): nat {
    if day in t then t[day].volume else 0
  }

  predicate GrantsContext(ev: Event, context: string) {
    ev.Granted? && ev.granted.context == context
  }

  // ----- one step -----

  /** Each event moves the global totals by exactly its own contribution. */
  lemma ApplyTotals(s: Store, ev: Event)
    ensures var a, a' := AnalyticsOf(s.analytics), AnalyticsOf(Apply(s, ev).analytics);
      && a'.totalPermissions == a.totalPermissions + GrantCount([ev])
      && a'.totalPayments == a.totalPayments + ExecutionCount([ev])
      && a'.totalVolume == a.totalVolume + ExecutedVolume([ev])
  {
    assert [ev][1..] == [];
  }

  /** Each event adds its value to the volume of its own day and of no other. */
  lemma ApplyDayVolume(s: Store, ev: Event, day: int)
    ensures DayVolume(Apply(s, ev).dailyStats, day) == DayVolume(s.dailyStats, day) + ExecutedVolumeOn([ev], day)
  {
    assert [ev][1..] == [];
  }

  /** No handler deletes a row. */
  lemma ApplyKeepsRows(s: Store, ev: Event)
    ensures var r := Apply(s, ev);
      && s.permissions.Keys <= r.permissions.Keys && s.payments.Keys <= r.payments.Keys
      && s.users.Keys <= r.users.Keys && s.dailyStats.Keys <= r.dailyStats.Keys
      && s.analytics.Keys <= r.analytics.Keys
  {
  }

  /** Only a new grant for the same context brings a revoked permission back. */
  lemma ApplyKeepsRevoked(s: Store, ev: Event, context: string)
    requires context in s.permissions && s.permissions[context].status == PermissionStatus.Revoked
    requires !GrantsContext(ev, context)
    ensures context in Apply(s, ev).permissions
    ensures Apply(s, ev).permissions[context].status == PermissionStatus.Revoked
  {
  }

  /** An execution keeps a first-activity time that is already set. */
  lemma ExecuteKeepsFirstActivity(t: map<string, User>, e: DelegationExecuted, address: string)
    requires address in t && t[address].firstActivityAt != 0
    ensures var r := UsersOnExecute(t, Lowercase(e.executor), Lowercase(e.to), e.value, e.block.timestamp);
      address in r && r[address].firstActivityAt == t[address].firstActivityAt
  {
    UsersOnExecuteRows(t, Lowercase(e.executor), Lowercase(e.to), e.value, e.block.timestamp);
  }

  /** A transfer never touches first-activity times. */
  lemma TransferKeepsFirstActivity(t: map<string, User>, e: TransferEvent, address: string)
    requires address in t
    ensures var r := UsersOnTransfer(t, Lowercase(e.from), Lowercase(e.to), e.value, e.block.timestamp);
      address in r && r[address].firstActivityAt == t[address].firstActivityAt
  {
    UsersOnTransferRows(t, Lowercase(e.from), Lowercase(e.to), e.value, e.block.timestamp);
  }

  /** Once set, a user's first-activity time never changes. */
  lemma ApplyKeepsFirstActivity(s: Store, ev: Event, address: string)
    requires address in s.users && s.users[address].firstActivityAt != 0
    ensures address in Apply(s, ev).users
    ensures Apply(s, ev).users[address].firstActivityAt == s.users[address].firstActivityAt
  {
    match ev
    case Granted(e) =>
    case Revoked(e) =>
    case Executed(e) => ExecuteKeepsFirstActivity(s.users, e, address);
    case Transferred(e) => TransferKeepsFirstActivity(s.users, e, address);
  }

  // ----- whole logs -----

  /**
   * Totals are exact: over any log, `totalPermissions` grows by the number of grants,
   * `totalPayments` by the number of executions and `totalVolume` by the sum of their values.
   */
  lemma {:induction false} ReplayTotals(s: Store, events: seq<Event>)
    ensures var a, a' := AnalyticsOf(s.analytics), AnalyticsOf(Replay(s, events).analytics);
      && a'.totalPermissions == a.totalPermissions + GrantCount(events)
      && a'.totalPayments == a.totalPayments + ExecutionCount(events)
      && a'.totalVolume == a.totalVolume + ExecutedVolume(events)
    decreases |events|
  {
    if events != [] {
      ApplyTotals(s, events[0]);
      ReplayTotals(Apply(s, events[0]), events[1..]);
    }
  }

  /** From the empty store, the global volume is the sum of all executed values. */
  lemma VolumeFromEmpty(events: seq<Event>)
    ensures AnalyticsOf(Replay(EmptyStore, events).analytics).totalVolume == ExecutedVolume(events)
  {
    ReplayTotals(EmptyStore, events);
  }

  /** Each day's volume is the sum of the values executed in that UTC day. */
  lemma {:induction false} ReplayDayVolume(s: Store, events: seq<Event>, day: int)
    ensures DayVolume(Replay(s, events).dailyStats, day) == DayVolume(s.dailyStats, day) + ExecutedVolumeOn(events, day)
    decreases |events|
  {
    if events != [] {
      ApplyDayVolume(s, events[0], day);
      ReplayDayVolume(Apply(s, events[0]), events[1..], day);
    }
  }

  /** Rows are never removed. */
  lemma {:induction false} ReplayKeepsRows(s: Store, events: seq<Event>)
    ensures var r := Replay(s, events);
      && s.permissions.Keys <= r.permissions.Keys && s.payments.Keys <= r.payments.Keys
      && s.users.Keys <= r.users.Keys && s.dailyStats.Keys <= r.dailyStats.Keys
      && s.analytics.Keys <= r.analytics.Keys
    decreases |events|
  {
    if events != [] {
      ApplyKeepsRows(s, events[0]);
      ReplayKeepsRows(Apply(s, events[0]), events[1..]);
    }
  }

  /** Revocation is one-way unless the same context is granted again. */
  lemma {:induction false} ReplayKeepsRevoked(s: Store, events: seq<Event>, context: string)
    requires context in s.permissions && s.permissions[context].status == PermissionStatus.Revoked
    requires forall i :: 0 <= i < |events| ==> !GrantsContext(events[i], context)
    ensures context in Replay(s, events).permissions
    ensures Replay(s, events).permissions[context].status == PermissionStatus.Revoked
    decreases |events|
  {
    if events != [] {
      assert !GrantsContext(events[0], context);
      ApplyKeepsRevoked(s, events[0], context);
      ReplayKeepsRevoked(Apply(s, events[0]), events[1..], context);
    }
  }

  /** The first-activity latch is set once and then kept. */
  lemma {:induction false} ReplayKeepsFirstActivity(s: Store, events: seq<Event>, address: string)
    requires address in s.users && s.users[address].firstActivityAt != 0
    ensures address in Replay(s, events).users
    ensures Replay(s, events).users[address].firstActivityAt == s.users[address].firstActivityAt
    decreases |events|
  {
    if events != [] {
      ApplyKeepsFirstActivity(s, events[0], address);
      ReplayKeepsFirstActivity(Apply(s, events[0]), events[1..], address);
    }
  }

  /**
   * Revoke does not consult the permission's status: revoking twice leaves it revoked but
   * takes the active counters down twice (each floored at zero).
   */
  lemma RevokeTwice(s: Store, e: PermissionRevoked)
    requires e.context in s.permissions
    ensures var r := Revoke(Revoke(s, e), e);
      && r.permissions[e.context] == s.permissions[e.context].(status := PermissionStatus.Revoked)
      && AnalyticsOf(r.analytics).activePermissions
         == DecrementFloor(DecrementFloor(AnalyticsOf(s.analytics).activePermissions))
      && r.users[Lowercase(e.granter)].activePermissions
         == DecrementFloor(DecrementFloor(UserOf(s.users, Lowercase(e.granter)).activePermissions))
  {
  }

  /**
   * Revoke decrements the counters without looking at the Permission table: whatever rows it
   * holds (the revoked context missing included), the User, DailyStats and Analytics tables
   * come out the same.
   */
  lemma RevokeIgnoresPermissionRow(s: Store, e: PermissionRevoked, permissions: map<string, Permission>)
    ensures var r, r' := Revoke(s, e), Revoke(s.(permissions := permissions), e);
      r.users == r'.users && r.dailyStats == r'.dailyStats && r.analytics == r'.analytics
    ensures e.context !in s.permissions ==> Revoke(s, e).permissions == s.permissions
    ensures AnalyticsOf(Revoke(s, e).analytics).activePermissions
         == DecrementFloor(AnalyticsOf(s.analytics).activePermissions)
  {
  }

  // ----- the documented scenario -----

  const A: string := "0xa"
  const B: string := "0xb"
  const C1: string := "0xc1"
  const GrantC1 := PermissionGranted(A, "0x5e", C1, 605800, Block(1, 1000), "0x01")
  const PayAB := DelegationExecuted(C1, A, B, 5000000, Block(2, 2000), "0x02", 0)
  const RevokeC1 := PermissionRevoked(A, C1, Block(3, 3000), "0x03")

  lemma ScenarioGrantTables()
    ensures UsersOnGrant(map[], A, 1000) == map[A := User(A, 1, 1, 0, 0, 0, 0, 1000, 1000)]
    ensures AnalyticsOnGrant(map[], 1000) == map[GLOBAL_ID := Analytics(GLOBAL_ID, 1, 1, 0, 0, 0, 1000)]
    ensures DailyOnGrant(map[], 1000) == map[0 := DailyStats(0, 1000, 1, 0, 0, 0, 0)]
  {
    assert DayIndex(1000) == 0;
  }

  lemma ScenarioExecuteTables()
    ensures UsersOnExecute(map[A := User(A, 1, 1, 0, 0, 0, 0, 1000, 1000)], A, B, 5000000, 2000)
         == map[A := User(A, 1, 1, 1, 0, 5000000, 0, 1000, 2000), B := User(B, 0, 0, 0, 1, 0, 5000000, 2000, 2000)]
    ensures AnalyticsOnExecute(map[GLOBAL_ID := Analytics(GLOBAL_ID, 1, 1, 0, 0, 0, 1000)], 5000000, 2000)
         == map[GLOBAL_ID := Analytics(GLOBAL_ID, 1, 1, 1, 5000000, 0, 2000)]
    ensures DailyOnExecute(map[0 := DailyStats(0, 1000, 1, 0, 0, 0, 0)], 5000000, 2000)
         == map[0 := DailyStats(0, 1000, 1, 0, 1, 5000000, 0)]
  {
    ScenarioExecuteUsers();
    ScenarioExecuteAnalytics();
    ScenarioExecuteDay();
  }

  lemma ScenarioExecuteAnalytics()
    ensures AnalyticsOnExecute(map[GLOBAL_ID := Analytics(GLOBAL_ID, 1, 1, 0, 0, 0, 1000)], 5000000, 2000)
         == map[GLOBAL_ID := Analytics(GLOBAL_ID, 1, 1, 1, 5000000, 0, 2000)]
  {
  }

  lemma ScenarioExecuteUsers()
    ensures UsersOnExecute(map[A := User(A, 1, 1, 0, 0, 0, 0, 1000, 1000)], A, B, 5000000, 2000)
         == map[A := User(A, 1, 1, 1, 0, 5000000, 0, 1000, 2000), B := User(B, 0, 0, 0, 1, 0, 5000000, 2000, 2000)]
  {
    assert A != B;
    var t := map[A := User(A, 1, 1, 0, 0, 0, 0, 1000, 1000)];
    var t1 := t[A := SendRow(UserOf(t, A), 5000000, 2000)];
    assert t1 == map[A := User(A, 1, 1, 1, 0, 5000000, 0, 1000, 2000)];
    assert B !in t1;
  }

  lemma ScenarioExecuteDay()
    ensures DailyOnExecute(map[0 := DailyStats(0, 1000, 1, 0, 0, 0, 0)], 5000000, 2000)
         == map[0 := DailyStats(0, 1000, 1, 0, 1, 5000000, 0)]
  {
    assert DayIndex(2000) == 0;
  }

  lemma ScenarioRevokePermission()
    ensures PermissionsOnRevoke(map[C1 := NewPermission(GrantC1)], C1)
         == map[C1 := NewPermission(GrantC1).(status := PermissionStatus.Revoked)]
  {
    var p := NewPermission(GrantC1);
    assert p.id == C1;
  }

  lemma ScenarioRevokeTables()
    ensures UsersOnRevoke(map[A := User(A, 1, 1, 1, 0, 5000000, 0, 1000, 2000), B := User(B, 0, 0, 0, 1, 0, 5000000, 2000, 2000)], A, 3000)
         == map[A := User(A, 1, 0, 1, 0, 5000000, 0, 1000, 3000), B := User(B, 0, 0, 0, 1, 0, 5000000, 2000, 2000)]
    ensures AnalyticsOnRevoke(map[GLOBAL_ID := Analytics(GLOBAL_ID, 1, 1, 1, 5000000, 0, 2000)], 3000)
         == map[GLOBAL_ID := Analytics(GLOBAL_ID, 1, 0, 1, 5000000, 0, 3000)]
    ensures DailyOnRevoke(map[0 := DailyStats(0, 1000, 1, 0, 1, 5000000, 0)], 3000)
         == map[0 := DailyStats(0, 1000, 1, 1, 1, 5000000, 0)]
  {
    assert A != B;
    assert DayIndex(3000) == 0;
  }

  const S1 := Store(
    map[C1 := NewPermission(GrantC1)],
    map[],
    map[A := User(A, 1, 1, 0, 0, 0, 0, 1000, 1000)],
    map[0 := DailyStats(0, 1000, 1, 0, 0, 0, 0)],
    map[GLOBAL_ID := Analytics(GLOBAL_ID, 1, 1, 0, 0, 0, 1000)])

  const S2 := Store(
    map[C1 := NewPermission(GrantC1)],
    map[PaymentId("0x02", 0) := NewPayment(PayAB)],
    map[A := User(A, 1, 1, 1, 0, 5000000, 0, 1000, 2000), B := User(B, 0, 0, 0, 1, 0, 5000000, 2000, 2000)],
    map[0 := DailyStats(0, 1000, 1, 0, 1, 5000000, 0)],
    map[GLOBAL_ID := Analytics(GLOBAL_ID, 1, 1, 1, 5000000, 0, 2000)])

  const S3 := Store(
    map[C1 := NewPermission(GrantC1).(status := PermissionStatus.Revoked)],
    map[PaymentId("0x02", 0) := NewPayment(PayAB)],
    map[A := User(A, 1, 0, 1, 0, 5000000, 0, 1000, 3000), B := User(B, 0, 0, 0, 1, 0, 5000000, 2000, 2000)],
    map[0 := DailyStats(0, 1000, 1, 1, 1, 5000000, 0)],
    map[GLOBAL_ID := Analytics(GLOBAL_ID, 1, 0, 1, 5000000, 0, 3000)])

  lemma ScenarioLowercase()
    ensures Lowercase(A) == A && Lowercase(B) == B
  {
    LowercaseOfLowercase(A);
    LowercaseOfLowercase(B);
  }

  lemma ApplyExecuted(s: Store, e: DelegationExecuted)
    ensures Apply(s, Executed(e)) == Execute(s, e)
  {
  }

  lemma ScenarioStep1()
    ensures Apply(EmptyStore, Granted(GrantC1)) == S1
  {
    ScenarioLowercase();
    ScenarioGrantTables();
  }

  lemma ScenarioStep2()
    ensures Apply(S1, Executed(PayAB)) == S2
  {
    ScenarioLowercase();
    ScenarioExecuteTables();
    ApplyExecuted(S1, PayAB);
  }

  lemma ApplyRevoked(s: Store, e: PermissionRevoked)
    ensures Apply(s, Event.Revoked(e)) == Revoke(s, e)
  {
  }

  lemma ScenarioStep3()
    ensures Apply(S2, Event.Revoked(RevokeC1)) == S3
  {
    ScenarioLowercase();
    ScenarioRevokePermission();
    ScenarioRevokeTables();
    ApplyRevoked(S2, RevokeC1);
  }

  lemma ScenarioReplay1()
    ensures Replay(EmptyStore, [Granted(GrantC1), Executed(PayAB), Event.Revoked(RevokeC1)])
         == Replay(S1, [Executed(PayAB), Event.Revoked(RevokeC1)])
  {
    var g, x, v := Granted(GrantC1), Executed(PayAB), Event.Revoked(RevokeC1);
    ReplayCons(EmptyStore, g, [x, v]);
    assert [g] + [x, v] == [g, x, v];
    ScenarioStep1();
  }

  lemma ScenarioReplay2()
    ensures Replay(S1, [Executed(PayAB), Event.Revoked(RevokeC1)]) == Replay(S2, [Event.Revoked(RevokeC1)])
  {
    var x, v := Executed(PayAB), Event.Revoked(RevokeC1);
    ReplayCons(S1, x, [v]);
    assert [x] + [v] == [x, v];
    ScenarioStep2();
  }

  lemma ScenarioReplay3()
    ensures Replay(S2, [Event.Revoked(RevokeC1)]) == S3
  {
    var v := Event.Revoked(RevokeC1);
    ReplayCons(S2, v, []);
    assert [v] + [] == [v];
    ScenarioStep3();
  }

  /**
   * The documented scenario: a grant at t=1000, an execution of 5000000 from the granter to
   * another address at t=2000 and a revoke at t=3000, all in the first UTC day, end in `S3`:
   * the permission revoked, one payment of 5000000, the granter with one grant, no active
   * permission and 5000000 sent, the recipient with 5000000 received and first seen at 2000.
   */
  lemma ScenarioGrantExecuteRevoke()
    ensures Replay(EmptyStore, [Granted(GrantC1), Executed(PayAB), Event.Revoked(RevokeC1)]) == S3
  {
    ScenarioReplay1();
    ScenarioReplay2();
    ScenarioReplay3();
  }

  // ----- the mutable entity store -----

  /**
   * The entity store the handlers run against: one table per entity kind. Each handler
   * method reads a row (or its default), changes its fields, and writes it back under the
   * row's own id, in the order of the source handler.
   */
  class EntityStore {
    var permissions: map<string, Permission>
    var payments: map<string, Payment>
    var users: map<string, User>
    var dailyStats: map<int, DailyStats>
    var analytics: map<string, Analytics>

    /** The current contents as a value. */
    function Snapshot(): Store
      reads this
    {
      Store(permissions, payments, users, dailyStats, analytics)
    }

    predicate Valid()
      reads this
    {
      Entities.Valid(Snapshot())
    }

    /** The indexer starts from an empty store. */
    constructor ()
      ensures Valid() && Snapshot() == EmptyStore
    {
      permissions, payments, users, dailyStats, analytics := map[], map[], map[], map[], map[];
    }

    /** getOrCreateAnalytics: nothing is written until the caller saves the row. */
    method GetOrCreateAnalytics() returns (a: Analytics)
      requires AnalyticsTableValid(analytics)
      ensures a == AnalyticsOf(analytics)
      ensures a.id == GLOBAL_ID
    {
      if GLOBAL_ID in analytics {
        a := analytics[GLOBAL_ID];
      } else {
        a := Analytics(id := GLOBAL_ID, totalPermissions := 0, activePermissions := 0, totalPayments := 0,
                       totalVolume := 0, uniqueUsers := 0, lastUpdated := 0);
      }
    }

    /** getOrCreateUser: nothing is written until the caller saves the row. */
    method GetOrCreateUser(address: string) returns (u: User)
      requires UsersValid(users)
      ensures u == UserOf(users, address)
      ensures u.id == address
    {
      if address in users {
        u := users[address];
      } else {
        u := User(id := address, totalPermissionsGranted := 0, activePermissions := 0,
                  totalPaymentsSent := 0, totalPaymentsReceived := 0, totalVolumeSent := 0,
                  totalVolumeReceived := 0, firstActivityAt := 0, lastActivityAt := 0);
      }
    }

    /** The DailyStats lookup each handler repeats: the stored row for the day, or a new one dated `timestamp`. */
    method GetOrCreateDailyStats(timestamp: int) returns (d: DailyStats)
      requires DailyStatsValid(dailyStats)
      ensures d == DailyOf(dailyStats, DayIndex(timestamp), timestamp)
      ensures d.id == DayIndex(timestamp)
    {
      var day := DayIndex(timestamp);
      if day in dailyStats {
        d := dailyStats[day];
      } else {
        d := DailyStats(id := day, date := timestamp, permissionsGranted := 0, permissionsRevoked := 0,
                        paymentsExecuted := 0, volume := 0, uniqueUsers := 0);
      }
    }

    // Each step below is one read-modify-write block of a handler, confined to one table.

    method GrantAnalytics(timestamp: int)
      requires AnalyticsTableValid(analytics)
      modifies this`analytics
      ensures analytics == AnalyticsOnGrant(old(analytics), timestamp)
    {
      var a := GetOrCreateAnalytics();
      a := a.(totalPermissions := a.totalPermissions + 1);
      a := a.(activePermissions := a.activePermissions + 1);
      a := a.(lastUpdated := timestamp);
      analytics := analytics[a.id := a];
    }

    method RevokeAnalytics(timestamp: int)
      requires AnalyticsTableValid(analytics)
      modifies this`analytics
      ensures analytics == AnalyticsOnRevoke(old(analytics), timestamp)
    {
      var a := GetOrCreateAnalytics();
      a := a.(activePermissions := if a.activePermissions - 1 >= 0 then a.activePermissions - 1 else 0);
      a := a.(lastUpdated := timestamp);
      analytics := analytics[a.id := a];
    }

    method ExecuteAnalytics(value: nat, timestamp: int)
      requires AnalyticsTableValid(analytics)
      modifies this`analytics
      ensures analytics == AnalyticsOnExecute(old(analytics), value, timestamp)
    {
      var a := GetOrCreateAnalytics();
      a := a.(totalPayments := a.totalPayments + 1);
      a := a.(totalVolume := a.totalVolume + value);
      a := a.(lastUpdated := timestamp);
      analytics := analytics[a.id := a];
    }

    method GrantUser(granter: string, timestamp: int)
      requires UsersValid(users)
      modifies this`users
      ensures users == UsersOnGrant(old(users), granter, timestamp)
    {
      var user := GetOrCreateUser(granter);
      user := user.(totalPermissionsGranted := user.totalPermissionsGranted + 1);
      user := user.(activePermissions := user.activePermissions + 1);
      if user.firstActivityAt == 0 {
        user := user.(firstActivityAt := timestamp);
      }
      user := user.(lastActivityAt := timestamp);
      users := users[user.id := user];
    }

    method RevokeUser(granter: string, timestamp: int)
      requires UsersValid(users)
      modifies this`users
      ensures users == UsersOnRevoke(old(users), granter, timestamp)
    {
      var user := GetOrCreateUser(granter);
      user := user.(activePermissions := if user.activePermissions - 1 >= 0 then user.activePermissions - 1 else 0);
      user := user.(lastActivityAt := timestamp);
      users := users[user.id := user];
    }

    method SendUser(address: string, value: nat, timestamp: int)
      requires UsersValid(users)
      modifies this`users
      ensures users == old(users)[address := SendRow(UserOf(old(users), address), value, timestamp)]
      ensures UsersValid(users)
    {
      var sender := GetOrCreateUser(address);
      sender := sender.(totalPaymentsSent := sender.totalPaymentsSent + 1);
      sender := sender.(totalVolumeSent := sender.totalVolumeSent + value);
      sender := sender.(lastActivityAt := timestamp);
      users := users[sender.id := sender];
    }

    method ReceiveUser(address: string, value: nat, timestamp: int)
      requires UsersValid(users)
      modifies this`users
      ensures users == old(users)[address := ReceiveRow(UserOf(old(users), address), value, timestamp)]
    {
      var receiver := GetOrCreateUser(address);
      receiver := receiver.(totalPaymentsReceived := receiver.totalPaymentsReceived + 1);
      receiver := receiver.(totalVolumeReceived := receiver.totalVolumeReceived + value);
      if receiver.firstActivityAt == 0 {
        receiver := receiver.(firstActivityAt := timestamp);
      }
      receiver := receiver.(lastActivityAt := timestamp);
      users := users[receiver.id := receiver];
    }

    method GrantDay(timestamp: int)
      requires DailyStatsValid(dailyStats)
      modifies this`dailyStats
      ensures dailyStats == DailyOnGrant(old(dailyStats), timestamp)
    {
      var d := GetOrCreateDailyStats(timestamp);
      d := d.(permissionsGranted := d.permissionsGranted + 1);
      dailyStats := dailyStats[d.id := d];
    }

    method RevokeDay(timestamp: int)
      requires DailyStatsValid(dailyStats)
      modifies this`dailyStats
      ensures dailyStats == DailyOnRevoke(old(dailyStats), timestamp)
    {
      var d := GetOrCreateDailyStats(timestamp);
      d := d.(permissionsRevoked := d.permissionsRevoked + 1);
      dailyStats := dailyStats[d.id := d];
    }

    method ExecuteDay(value: nat, timestamp: int)
      requires DailyStatsValid(dailyStats)
      modifies this`dailyStats
      ensures dailyStats == DailyOnExecute(old(dailyStats), value, timestamp)
    {
      var d := GetOrCreateDailyStats(timestamp);
      d := d.(paymentsExecuted := d.paymentsExecuted + 1);
      d := d.(volume := d.volume + value);
      dailyStats := dailyStats[d.id := d];
    }

    method GrantPermission(e: PermissionGranted)
      modifies this`permissions
      ensures permissions == PermissionsOnGrant(old(permissions), e)
    {
      var permission := NewPermission(e);
      permissions := permissions[permission.id := permission];
    }

    method RevokePermission(context: string)
      requires PermissionsValid(permissions)
      modifies this`permissions
      ensures permissions == PermissionsOnRevoke(old(permissions), context)
    {
      if context in permissions {
        var permission := permissions[context];
        permission := permission.(status := PermissionStatus.Revoked);
        permissions := permissions[permission.id := permission];
      }
    }

    method RecordPayment(e: DelegationExecuted)
      modifies this`payments
      ensures payments == PaymentsOnExecute(old(payments), e)
    {
      var payment := NewPayment(e);
      payments := payments[payment.id := payment];
    }

    /** The sender half of a transfer: only an existing row is updated. */
    method TransferOut(address: string, value: nat, timestamp: int)
      requires UsersValid(users)
      modifies this`users
      ensures users == if address in old(users)
                       then old(users)[address := TransferOutRow(old(users)[address], value, timestamp)]
                       else old(users)
    {
      if address in users {
        var sender := users[address];
        sender := sender.(totalVolumeSent := sender.totalVolumeSent + value);
        sender := sender.(lastActivityAt := timestamp);
        users := users[sender.id := sender];
      }
    }

    /** The receiver half of a transfer: only an existing row is updated. */
    method TransferIn(address: string, value: nat, timestamp: int)
      requires UsersValid(users)
      modifies this`users
      ensures users == if address in old(users)
                       then old(users)[address := TransferInRow(old(users)[address], value, timestamp)]
                       else old(users)
    {
      if address in users {
        var receiver := users[address];
        receiver := receiver.(totalVolumeReceived := receiver.totalVolumeReceived + value);
        receiver := receiver.(lastActivityAt := timestamp);
        users := users[receiver.id := receiver];
      }
    }

    /** The PermissionGranted handler. */
    method OnPermissionGranted(e: PermissionGranted)
      requires Valid()
      modifies this
      ensures Valid()
      ensures Snapshot() == Grant(old(Snapshot()), e)
    {
      var ts := e.block.timestamp;
      GrantPermission(e);
      GrantAnalytics(ts);
      GrantUser(Lowercase(e.granter), ts);
      GrantDay(ts);
    }

    /** The PermissionRevoked handler. */
    method OnPermissionRevoked(e: PermissionRevoked)
      requires Valid()
      modifies this
      ensures Valid()
      ensures Snapshot() == Revoke(old(Snapshot()), e)
    {
      var ts := e.block.timestamp;
      RevokePermission(e.context);
      RevokeAnalytics(ts);
      RevokeUser(Lowercase(e.granter), ts);
      RevokeDay(ts);
    }

    /** The DelegationExecuted handler: the sender is saved before the receiver is read. */
    method OnDelegationExecuted(e: DelegationExecuted)
      requires Valid()
      modifies this
      ensures Valid()
      ensures Snapshot() == Execute(old(Snapshot()), e)
    {
      ghost var s0 := Snapshot();
      ghost var r := Execute(s0, e);
      var ts := e.block.timestamp;
      var from, to := Lowercase(e.executor), Lowercase(e.to);
      RecordPayment(e);
      ExecuteAnalytics(e.value, ts);
      SendUser(from, e.value, ts);
      ghost var sent := users;
      assert sent == s0.users[from := SendRow(UserOf(s0.users, from), e.value, ts)];
      ReceiveUser(to, e.value, ts);
      assert users == sent[to := ReceiveRow(UserOf(sent, to), e.value, ts)];
      assert users == r.users;
      ExecuteDay(e.value, ts);
      assert payments == r.payments && analytics == r.analytics && dailyStats == r.dailyStats;
      assert Snapshot() == r;
    }

    /** The USDC Transfer handler: only existing users are updated, mints and burns are skipped. */
    method OnTransfer(e: TransferEvent)
      requires Valid()
      modifies this
      ensures Valid()
      ensures Snapshot() == Transfer(old(Snapshot()), e)
    {
      if e.from == ZERO_ADDRESS || e.to == ZERO_ADDRESS {
        return;
      }
      var ts := e.block.timestamp;
      TransferOut(Lowercase(e.from), e.value, ts);
      TransferIn(Lowercase(e.to), e.value, ts);
    }

    /** Delivers one event to its handler. */
    method Handle(ev: Event)
      requires Valid()
      modifies this
      ensures Valid()
      ensures Snapshot() == Apply(old(Snapshot()), ev)
    {
      match ev
      case Granted(e) => OnPermissionGranted(e);
      case Revoked(e) => OnPermissionRevoked(e);
      case Executed(e) => OnDelegationExecuted(e);
      case Transferred(e) => OnTransfer(e);
    }
  }
}
