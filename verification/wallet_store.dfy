/**
 * The client's persisted wallet store: connection facts, the session account, the granted
 * permissions and the subscriptions. Every action maps the current state to a new one built by
 * spreading, `map` and `filter`; nothing is updated in place.
 */
module WalletStore {

  import opened Options
  import opened Seqs
  import opened Types

  datatype WalletState = WalletState(
    isConnected: bool,
    address: Option<string>,
    chainId: Option<int>,
    isMetaMaskFlask: bool,
    sessionAccount: Option<SessionAccount>,
    grantedPermissions: seq<GrantedPermission>,
    subscriptions: seq<Subscription>)

  /** Disconnected, nothing known about the wallet, and no permissions or subscriptions. */
  const InitialState: WalletState := WalletState(false, None, None, false, None, [], [])

  // ----- setters: each writes one property -----

  function SetConnected(s: WalletState, connected: bool): (r: WalletState)
    ensures r.isConnected == connected
    ensures r.(isConnected := s.isConnected) == s
  {
    s.(isConnected := connected)
  }

  function SetAddress(s: WalletState, address: Option<string>): (r: WalletState)
    ensures r.address == address
    ensures r.(address := s.address) == s
  {
    s.(address := address)
  }

  function SetChainId(s: WalletState, chainId: Option<int>): (r: WalletState)
    ensures r.chainId == chainId
    ensures r.(chainId := s.chainId) == s
  {
    s.(chainId := chainId)
  }

  function SetIsMetaMaskFlask(s: WalletState, isFlask: bool): (r: WalletState)
    ensures r.isMetaMaskFlask == isFlask
    ensures r.(isMetaMaskFlask := s.isMetaMaskFlask) == s
  {
    s.(isMetaMaskFlask := isFlask)
  }

  function SetSessionAccount(s: WalletState, account: Option<SessionAccount>): (r: WalletState)
    ensures r.sessionAccount == account
    ensures r.(sessionAccount := s.sessionAccount) == s
  {
    s.(sessionAccount := account)
  }

  /**
   * `initSessionAccount`: the stored session account when there is one; otherwise `newAccount`,
   * the freshly generated key pair, which is stored first. Returns the new state and the account.
   */
  function InitSessionAccount(s: WalletState, newAccount: SessionAccount): (r: (WalletState, SessionAccount))
    ensures r.0.sessionAccount == Some(r.1)
    ensures s.sessionAccount.Some? ==> r.1 == s.sessionAccount.value
    ensures s.sessionAccount.None? ==> r.1 == newAccount
    ensures r.0.(sessionAccount := s.sessionAccount) == s
  {
    if s.sessionAccount.Some? then (s, s.sessionAccount.value)
    else (SetSessionAccount(s, Some(newAccount)), newAccount)
  }

  /** Once an account exists, initialising again keeps it, whatever key pair would be generated. */
  lemma InitSessionAccountStable(s: WalletState, first: SessionAccount, second: SessionAccount)
    ensures var (s1, account) := InitSessionAccount(s, first);
      InitSessionAccount(s1, second) == (s1, account)
  {
  }

  // ----- granted permissions -----

  /** Appends a granted permission; the earlier ones keep their places. */
  function AddGrantedPermission(s: WalletState, permission: GrantedPermission): (r: WalletState)
    ensures |r.grantedPermissions| == |s.grantedPermissions| + 1
    ensures r.grantedPermissions[..|s.grantedPermissions|] == s.grantedPermissions
    ensures r.grantedPermissions[|s.grantedPermissions|] == permission
    ensures r.(grantedPermissions := s.grantedPermissions) == s
  {
    s.(grantedPermissions := s.grantedPermissions + [permission])
  }

  function HasOtherContext(context: string): GrantedPermission -> bool {
    (p: GrantedPermission) => p.context != context
  }

  /** Drops every granted permission with the given context and keeps the rest in order. */
  function RemoveGrantedPermission(s: WalletState, context: string): (r: WalletState)
    ensures forall p :: p in r.grantedPermissions <==> p in s.grantedPermissions && p.context != context
    ensures r.(grantedPermissions := s.grantedPermissions) == s
  {
    s.(grantedPermissions := Filter(s.grantedPermissions, HasOtherContext(context)))
  }

  /**
   * Removal by context takes away exactly the matching entries: every other entry keeps its
   * multiplicity, and the survivors keep their relative order across any split of the list.
   */
  lemma RemoveGrantedPermissionExact(s: WalletState, context: string, front: seq<GrantedPermission>, back: seq<GrantedPermission>)
    requires s.grantedPermissions == front + back
    ensures var kept := RemoveGrantedPermission(s, context).grantedPermissions;
      && (forall p :: multiset(kept)[p] == if p.context != context then multiset(s.grantedPermissions)[p] else 0)
      && kept == Filter(front, HasOtherContext(context)) + Filter(back, HasOtherContext(context))
  {
    FilterMultiplicity(s.grantedPermissions, HasOtherContext(context));
    FilterConcat(front, back, HasOtherContext(context));
  }

  /** Adding a permission and then removing its context is the same as just removing the context. */
  lemma AddThenRemoveGrantedPermission(s: WalletState, permission: GrantedPermission)
    ensures RemoveGrantedPermission(AddGrantedPermission(s, permission), permission.context)
         == RemoveGrantedPermission(s, permission.context)
  {
    FilterConcat(s.grantedPermissions, [permission], HasOtherContext(permission.context));
  }

  // ----- subscriptions -----

  /** Appends a subscription; the earlier ones keep their places. */
  function AddSubscription(s: WalletState, subscription: Subscription): (r: WalletState)
    ensures |r.subscriptions| == |s.subscriptions| + 1
    ensures r.subscriptions[..|s.subscriptions|] == s.subscriptions
    ensures r.subscriptions[|s.subscriptions|] == subscription
    ensures r.(subscriptions := s.subscriptions) == s
  {
    s.(subscriptions := s.subscriptions + [subscription])
  }

  /** `subs.map(sub => sub.id === id ? { ...sub, ...updates } : sub)`. */
  function UpdateById(subs: seq<Subscription>, id: string, updates: SubscriptionUpdate): (r: seq<Subscription>)
    ensures |r| == |subs|
    ensures forall i :: 0 <= i < |subs| ==>
      r[i] == if subs[i].id == id then Merge(subs[i], updates) else subs[i]
  {
    if subs == [] then []
    else
      var head := if subs[0].id == id then Merge(subs[0], updates) else subs[0];
      [head] + UpdateById(subs[1..], id, updates)
  }

  /**
   * Merges the updates into every subscription with the given id; the other subscriptions,
   * the order and the length are unchanged.
   */
  function UpdateSubscription(s: WalletState, id: string, updates: SubscriptionUpdate): (r: WalletState)
    ensures |r.subscriptions| == |s.subscriptions|
    ensures forall i :: 0 <= i < |s.subscriptions| ==>
      r.subscriptions[i] == if s.subscriptions[i].id == id then Merge(s.subscriptions[i], updates) else s.subscriptions[i]
    ensures r.(subscriptions := s.subscriptions) == s
  {
    s.(subscriptions := UpdateById(s.subscriptions, id, updates))
  }

  /** Updating an id no subscription has changes nothing. */
  lemma UpdateUnknownId(s: WalletState, id: string, updates: SubscriptionUpdate)
    requires forall sub :: sub in s.subscriptions ==> sub.id != id
    ensures UpdateSubscription(s, id, updates) == s
  {
    var r := UpdateSubscription(s, id, updates);
    assert forall i :: 0 <= i < |s.subscriptions| ==> s.subscriptions[i].id != id;
    assert r.subscriptions == s.subscriptions;
  }

  function HasOtherId(id: string): Subscription -> bool {
    (sub: Subscription) => sub.id != id
  }

  /** Drops every subscription with the given id and keeps the rest in order. */
  function RemoveSubscription(s: WalletState, id: string): (r: WalletState)
    ensures forall sub :: sub in r.subscriptions <==> sub in s.subscriptions && sub.id != id
    ensures r.(subscriptions := s.subscriptions) == s
  {
    s.(subscriptions := Filter(s.subscriptions, HasOtherId(id)))
  }

  /**
   * Removal by id takes away exactly the entries with that id: every other entry keeps its
   * multiplicity, and removing the same id a second time changes nothing.
   */
  lemma RemoveSubscriptionExact(s: WalletState, id: string)
    ensures var kept := RemoveSubscription(s, id).subscriptions;
      forall sub :: multiset(kept)[sub] == if sub.id != id then multiset(s.subscriptions)[sub] else 0
    ensures RemoveSubscription(RemoveSubscription(s, id), id) == RemoveSubscription(s, id)
  {
    FilterMultiplicity(s.subscriptions, HasOtherId(id));
    FilterIdempotent(s.subscriptions, HasOtherId(id));
  }

  /** Removal keeps the survivors' relative order: it distributes over any split of the list. */
  lemma RemoveSubscriptionKeepsOrder(s: WalletState, id: string, front: seq<Subscription>, back: seq<Subscription>)
    requires s.subscriptions == front + back
    ensures RemoveSubscription(s, id).subscriptions
         == Filter(front, HasOtherId(id)) + Filter(back, HasOtherId(id))
  {
    FilterConcat(front, back, HasOtherId(id));
  }

  /** Adding a subscription and then removing its id is the same as just removing the id. */
  lemma AddThenRemoveSubscription(s: WalletState, subscription: Subscription)
    ensures RemoveSubscription(AddSubscription(s, subscription), subscription.id)
         == RemoveSubscription(s, subscription.id)
  {
    FilterConcat(s.subscriptions, [subscription], HasOtherId(subscription.id));
  }

  // ----- reset -----

  /** Back to the initial state, whatever the current one. */
  function Reset(s: WalletState): (r: WalletState)
    ensures !r.isConnected && !r.isMetaMaskFlask
    ensures r.address.None? && r.chainId.None? && r.sessionAccount.None?
    ensures r.grantedPermissions == [] && r.subscriptions == []
  {
    InitialState
  }
}
