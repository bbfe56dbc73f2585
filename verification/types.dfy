/**
 * The client's record shapes: subscriptions, the parameters of a new subscription, the
 * ERC-7715 permission request, granted permissions and the session account.
 * Optional properties are `Option`s; `bigint` amounts are integers; `number` seconds are
 * integers (the client never produces fractional ones).
 */
module Types {

  import opened Options

  datatype Category = SubscriptionService | Salary | Dca | Donation | Savings

  datatype PaymentType = Periodic | Stream

  datatype SubscriptionStatus = Active | Paused | Expired | Cancelled

  datatype Subscription = Subscription(
    id: string,
    name: string,
    description: Option<string>,
    category: Category,
    recipient: string,
    tokenAddress: string,
    paymentType: PaymentType,
    periodAmount: Option<int>,
    periodDuration: Option<int>,
    amountPerSecond: Option<int>,
    initialAmount: Option<int>,
    maxAmount: Option<int>,
    startTime: int,
    expiry: int,
    createdAt: int,
    status: SubscriptionStatus,
    permissionContext: Option<string>,
    totalPaid: Option<int>,
    lastPayment: Option<int>)

  /**
   * `Partial<Subscription>`: `None` leaves a property alone; `Some(v)` overwrites it. For an
   * optional property `Some(None)` is a key present with value `undefined`, which the object
   * spread copies like any other value.
   */
  datatype SubscriptionUpdate = SubscriptionUpdate(
    id: Option<string>,
    name: Option<string>,
    description: Option<Option<string>>,
    category: Option<Category>,
    recipient: Option<string>,
    tokenAddress: Option<string>,
    paymentType: Option<PaymentType>,
    periodAmount: Option<Option<int>>,
    periodDuration: Option<Option<int>>,
    amountPerSecond: Option<Option<int>>,
    initialAmount: Option<Option<int>>,
    maxAmount: Option<Option<int>>,
    startTime: Option<int>,
    expiry: Option<int>,
    createdAt: Option<int>,
    status: Option<SubscriptionStatus>,
    permissionContext: Option<Option<string>>,
    totalPaid: Option<Option<int>>,
    lastPayment: Option<Option<int>>)

  /** The update that sets only the status. */
  function StatusUpdate(status: SubscriptionStatus): SubscriptionUpdate {
    SubscriptionUpdate(None, None, None, None, None, None, None, None, None, None, None, None,
                       None, None, None, Some(status), None, None, None)
  }

  /**
   * `{ ...sub, ...updates }`: each property the update carries replaces the old one and each
   * absent one keeps it (`GetOr` field by field). The ensures spell this out for the status and
   * the id, the properties the subscription hook and the id-based actions rely on.
   */
  function Merge(sub: Subscription, u: SubscriptionUpdate): (r: Subscription)
    ensures u.status.Some? ==> r.status == u.status.value
    ensures u.status.None? ==> r.status == sub.status
    ensures u.id.Some? ==> r.id == u.id.value
    ensures u.id.None? ==> r.id == sub.id
  {
    Subscription(
      id := u.id.GetOr(sub.id),
      name := u.name.GetOr(sub.name),
      description := u.description.GetOr(sub.description),
      category := u.category.GetOr(sub.category),
      recipient := u.recipient.GetOr(sub.recipient),
      tokenAddress := u.tokenAddress.GetOr(sub.tokenAddress),
      paymentType := u.paymentType.GetOr(sub.paymentType),
      periodAmount := u.periodAmount.GetOr(sub.periodAmount),
      periodDuration := u.periodDuration.GetOr(sub.periodDuration),
      amountPerSecond := u.amountPerSecond.GetOr(sub.amountPerSecond),
      initialAmount := u.initialAmount.GetOr(sub.initialAmount),
      maxAmount := u.maxAmount.GetOr(sub.maxAmount),
      startTime := u.startTime.GetOr(sub.startTime),
      expiry := u.expiry.GetOr(sub.expiry),
      createdAt := u.createdAt.GetOr(sub.createdAt),
      status := u.status.GetOr(sub.status),
      permissionContext := u.permissionContext.GetOr(sub.permissionContext),
      totalPaid := u.totalPaid.GetOr(sub.totalPaid),
      lastPayment := u.lastPayment.GetOr(sub.lastPayment))
  }

  /** Merging a status-only update changes the status and nothing else. */
  lemma MergeStatus(sub: Subscription, status: SubscriptionStatus)
    ensures Merge(sub, StatusUpdate(status)) == sub.(status := status)
  {
  }

  /** What the create form submits. Amounts are human-readable decimal strings. */
  datatype CreateSubscriptionParams = CreateSubscriptionParams(
    name: string,
    description: Option<string>,
    category: Category,
    recipient: string,
    tokenAddress: string,
    paymentType: PaymentType,
    periodAmount: Option<string>,
    periodDuration: Option<int>,
    amountPerSecond: Option<string>,
    initialAmount: Option<string>,
    maxAmount: Option<string>,
    durationDays: int)

  /** The permission's signer: always an account, the session account. */
  datatype Signer = Account(address: string)

  datatype PermissionTerms =
    | PeriodicTerms(tokenAddress: string, periodAmount: int, periodDuration: int, justification: string)
    | StreamTerms(tokenAddress: string, amountPerSecond: int, initialAmount: int, maxAmount: int,
                  startTime: int, justification: string)

  /** An ERC-7715 `wallet_grantPermissions` request entry. */
  datatype PermissionGrant = PermissionGrant(
    chainId: int,
    expiry: int,
    signer: Signer,
    permission: PermissionTerms,
    isAdjustmentAllowed: bool)

  datatype GrantedPermission = GrantedPermission(
    context: string,
    expiry: int,
    permissions: seq<PermissionGrant>)

  datatype SessionAccount = SessionAccount(
    address: string,
    privateKey: string,
    createdAt: int)
}
