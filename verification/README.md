# FlowPay core, modelled in Dafny

FlowPay lets a user grant an ERC-7715 permission to a session account, and that account then pays a
recipient on a schedule (periodic) or continuously (stream). Two parts of the system are modelled here.

**The indexer** consumes chain events and keeps five tables:

- Permission and Payment rows;
- per-address User statistics;
- per-UTC-day DailyStats;
- a single global Analytics row.

Its rules are written twice:

- As pure functions on a `Store` value, one per handler, each built from one small function per table. The handlers are `DelegationHandler.Grant`, `Revoke`, `Execute` and `Erc20Handler.Transfer`. `Indexer.Apply` and `Indexer.Replay` deliver one event, or a log of events, in order.
- As the class `Indexer.EntityStore`, whose map fields are updated in place. There is one method per handler, and each is proved to leave the store exactly as the pure rule says.

**The client** is covered by four modules:

- `WalletStore` holds the persisted wallet state and its list actions.
- `Subscriptions` holds the subscription hook: status changes, filters, the monthly spending total, and the record `createSubscription` stores.
- `Wallet` holds the display helpers and the permission request builder.
- `Types` and `Constants` carry the record shapes and constants.

Modelling choices:

- Amounts are unbounded naturals or integers.
- JavaScript BigInt `/` and `%` truncate toward zero (`Decimal.TruncDiv` and `TruncRem`). `Math.floor` of a quotient is `Decimal.FloorDiv`.
- `||` defaulting treats a missing value, `""` and `0` as absent.

A User's `firstActivityAt` is latched in only two places: for the granter on PermissionGranted (`envio/src/DelegationHandler.ts:94-96`) and for the recipient on DelegationExecuted (`envio/src/DelegationHandler.ts:206-208`). Revoke, the executor's side of an execution and ERC-20 transfers never set it. `UsersOnExecuteRows`, `UsersOnTransferRows` and `ReplayKeepsFirstActivity` state this.

## Model

| member | source | states |
|---|---|---|
| Entities.DayIndex | envio/src/DelegationHandler.ts:53-56 | The day key of a timestamp is the UTC day `d` with `86400*d <= t < 86400*d + 86400` |
| Entities.SameDayKey | envio/src/DelegationHandler.ts:53-56 | Two timestamps get the same day key exactly when they lie in the same UTC day window |
| Entities.Latch | envio/src/DelegationHandler.ts:94-96 | The set-once first-activity field: kept when already non-zero, otherwise set to the event time |
| Entities.AnalyticsOf | envio/src/DelegationHandler.ts:17-31 | The stored `"global"` row, or a fresh row with id `"global"` and every counter and volume zero |
| Entities.UserOf | envio/src/DelegationHandler.ts:34-50 | The stored row for the address, or a fresh row with that id and every field zero |
| Entities.DailyOf | envio/src/DelegationHandler.ts:102-112 | The stored row for the day, or a fresh one whose `date` is the creating event's timestamp and whose counters are zero |
| Entities.EmptyStoreValid | envio/src/DelegationHandler.ts:17-50 | The empty store satisfies the invariant: rows keyed by id, only a `"global"` Analytics row, counters non-negative, active never above total |
| DelegationHandler.NewPermission | envio/src/DelegationHandler.ts:64-81 | The granted Permission: id and context are the event's context, status active, granter and session account lowercased, `grantedAt` the block time, expiry from the event, placeholder token `""` and type `"periodic"`, no period or stream terms |
| DelegationHandler.PermissionsOnGrant | envio/src/DelegationHandler.ts:64-82 | Exactly the row under the event's context is inserted or replaced, with that Permission; ids stay keyed |
| DelegationHandler.PermissionsOnRevoke | envio/src/DelegationHandler.ts:125-129 | The key set is unchanged (an unknown context creates nothing); an existing row only changes status to revoked; other rows are unchanged |
| DelegationHandler.NewPayment | envio/src/DelegationHandler.ts:167-180 | The Payment is keyed `txHash-logIndex`, carries the value as amount, the context as permission id, lowercased from/to and the block time |
| DelegationHandler.PaymentIdInjective | envio/src/DelegationHandler.ts:167 | Distinct (hash, log index) pairs give distinct payment ids when hashes contain no `-` |
| DelegationHandler.PaymentsOnExecute | envio/src/DelegationHandler.ts:166-180 | Exactly one Payment row, under the payment id, is written; the others are unchanged |
| DelegationHandler.DecrementFloor | envio/src/DelegationHandler.ts:133 | `Math.max(0, n - 1)`: never negative, one less for positive counters, zero otherwise |
| DelegationHandler.AnalyticsOnGrant | envio/src/DelegationHandler.ts:85-89 | Only the `"global"` row changes: totalPermissions and activePermissions grow by exactly 1, lastUpdated becomes the timestamp |
| DelegationHandler.AnalyticsOnRevoke | envio/src/DelegationHandler.ts:132-135 | Only the `"global"` row changes: activePermissions is decremented with a floor at 0, lastUpdated becomes the timestamp |
| DelegationHandler.AnalyticsOnExecute | envio/src/DelegationHandler.ts:183-189 | Only the `"global"` row changes: totalPayments grows by 1 and totalVolume by exactly the value |
| DelegationHandler.UsersOnGrant | envio/src/DelegationHandler.ts:92-99 | Only the granter's row changes: both grant counters +1, firstActivityAt latched, lastActivityAt the timestamp; invariant kept |
| DelegationHandler.UsersOnRevoke | envio/src/DelegationHandler.ts:138-141 | Only the granter's row changes: activePermissions decremented with floor 0, lastActivityAt the timestamp |
| DelegationHandler.SendRow | envio/src/DelegationHandler.ts:192-198 | The executor's half of an execution keeps a valid User row valid |
| DelegationHandler.ReceiveRow | envio/src/DelegationHandler.ts:201-210 | The recipient's half of an execution keeps a valid User row valid |
| DelegationHandler.UsersOnExecute | envio/src/DelegationHandler.ts:192-210 | Only the executor's and recipient's rows are inserted or replaced; the invariant is kept |
| DelegationHandler.UsersOnExecuteRows | envio/src/DelegationHandler.ts:192-210 | The executor gets +1 sent and +value volume sent; the recipient +1 received and +value received and a latched firstActivityAt; the executor's firstActivityAt is untouched; both stamped; a self-payment's row gets both halves |
| DelegationHandler.DailyOnGrant | envio/src/DelegationHandler.ts:102-116 | Exactly the event's day row is written, with permissionsGranted +1 and nothing else changed |
| DelegationHandler.DailyOnRevoke | envio/src/DelegationHandler.ts:144-158 | Exactly the event's day row is written, with permissionsRevoked +1 and nothing else changed |
| DelegationHandler.DailyOnExecute | envio/src/DelegationHandler.ts:213-230 | Exactly the event's day row is written, with paymentsExecuted +1 and volume +value, uniqueUsers unchanged |
| DelegationHandler.Grant | envio/src/DelegationHandler.ts:59-117 | PermissionGranted leaves the Payment table alone and preserves the store invariant |
| DelegationHandler.Revoke | envio/src/DelegationHandler.ts:120-159 | PermissionRevoked leaves the Payment table alone and preserves the store invariant |
| DelegationHandler.Execute | envio/src/DelegationHandler.ts:162-231 | DelegationExecuted leaves the Permission table alone and preserves the store invariant |
| Erc20Handler.TransferOutRow | envio/src/ERC20Handler.ts:47-54 | The sender's update keeps a valid User row valid |
| Erc20Handler.TransferInRow | envio/src/ERC20Handler.ts:56-63 | The receiver's update keeps a valid User row valid |
| Erc20Handler.UsersOnTransfer | envio/src/ERC20Handler.ts:46-63 | No User row is created or removed; rows other than sender and receiver are unchanged; invariant kept |
| Erc20Handler.UsersOnTransferRows | envio/src/ERC20Handler.ts:46-63 | An existing sender gains exactly value sent and an existing receiver exactly value received, both stamped; a self-transfer's row gets both; counters and firstActivityAt never change |
| Erc20Handler.Transfer | envio/src/ERC20Handler.ts:20-64 | A transfer from or to the zero address changes nothing; otherwise only the User table changes, with the same key set; invariant kept |
| Indexer.Apply | envio/src/DelegationHandler.ts:59-231 | Delivering one event to its handler keeps the store invariant; only an execution writes a Payment, only a grant or revoke writes a Permission, and a transfer changes nothing but the User table. Its effect on the totals is stated by ApplyTotals, ApplyDayVolume and ApplyKeepsRows |
| Indexer.Replay | envio/src/DelegationHandler.ts:59-231 | Delivering a log in order keeps the store invariant; a log without executions leaves the Payment table as it was, one without grants or revokes the Permission table. Its totals are stated by ReplayTotals and ReplayDayVolume |
| Indexer.ApplyTotals | envio/src/DelegationHandler.ts:85-189 | One event moves totalPermissions, totalPayments and totalVolume by exactly its own contribution |
| Indexer.ReplayTotals | envio/src/DelegationHandler.ts:85-189 | Over a log, the global totals grow by the number of grants, the number of executions and the sum of executed values |
| Indexer.VolumeFromEmpty | envio/src/DelegationHandler.ts:183-189 | From an empty store, totalVolume equals the sum of all executed values |
| Indexer.ApplyDayVolume | envio/src/DelegationHandler.ts:213-230 | One event adds to a day's volume exactly the value of an execution falling in that day |
| Indexer.ReplayDayVolume | envio/src/DelegationHandler.ts:213-230 | Over a log, each day's volume grows by the sum of the values executed in that UTC day |
| Indexer.ApplyKeepsRows | envio/src/DelegationHandler.ts:59-231 | No event removes a row from any table |
| Indexer.ReplayKeepsRows | envio/src/DelegationHandler.ts:59-231 | No event log removes a row from any table |
| Indexer.ApplyKeepsRevoked | envio/src/DelegationHandler.ts:125-129 | A revoked permission stays revoked under any event other than a new grant of that context |
| Indexer.ReplayKeepsRevoked | envio/src/DelegationHandler.ts:125-129 | A revoked permission stays revoked through any log that does not re-grant that context |
| Indexer.ExecuteKeepsFirstActivity | envio/src/DelegationHandler.ts:192-210 | An execution never changes a firstActivityAt that is already set |
| Indexer.TransferKeepsFirstActivity | envio/src/ERC20Handler.ts:46-63 | A transfer never changes any firstActivityAt |
| Indexer.ApplyKeepsFirstActivity | envio/src/DelegationHandler.ts:94-96 | Once set, a user's firstActivityAt is never changed by any event |
| Indexer.ReplayKeepsFirstActivity | envio/src/DelegationHandler.ts:94-96 | Once set, a user's firstActivityAt survives any event log |
| Indexer.RevokeTwice | envio/src/DelegationHandler.ts:125-141 | Revoking twice leaves the permission revoked but decrements the active counters twice, each floored at 0 |
| Indexer.RevokeIgnoresPermissionRow | envio/src/DelegationHandler.ts:125-141 | Revoke's counter updates do not depend on the Permission table; a missing context creates no row; global active count is decremented with floor 0 |
| Indexer.ScenarioGrantTables | envio/src/DelegationHandler.ts:85-116 | Worked grant on empty tables: the exact User, Analytics and DailyStats rows produced |
| Indexer.ScenarioExecuteTables | envio/src/DelegationHandler.ts:183-230 | Worked payment of 5 USDC: the exact sender, receiver, Analytics and DailyStats rows |
| Indexer.ScenarioRevokePermission | envio/src/DelegationHandler.ts:125-129 | Worked revoke: the granted Permission with status revoked |
| Indexer.ScenarioRevokeTables | envio/src/DelegationHandler.ts:132-158 | Worked revoke: the exact counters afterwards |
| Indexer.ScenarioGrantExecuteRevoke | envio/src/DelegationHandler.ts:59-231 | Grant, pay 5 USDC, revoke from an empty store gives exactly the listed store |
| Indexer.EntityStore.constructor | envio/src/DelegationHandler.ts:17-50 | A new entity store is empty and satisfies the invariant |
| Indexer.EntityStore.GetOrCreateAnalytics | envio/src/DelegationHandler.ts:17-31 | Returns the stored global row or the default one, with id `"global"` |
| Indexer.EntityStore.GetOrCreateUser | envio/src/DelegationHandler.ts:34-50 | Returns the stored row for the address or the default one, with that id |
| Indexer.EntityStore.GetOrCreateDailyStats | envio/src/DelegationHandler.ts:144-156 | Returns the stored row for the timestamp's day or a fresh one keyed by that day |
| Indexer.EntityStore.GrantAnalytics | envio/src/DelegationHandler.ts:85-89 | The analytics table becomes AnalyticsOnGrant of its old value |
| Indexer.EntityStore.RevokeAnalytics | envio/src/DelegationHandler.ts:132-135 | The analytics table becomes AnalyticsOnRevoke of its old value |
| Indexer.EntityStore.ExecuteAnalytics | envio/src/DelegationHandler.ts:183-189 | The analytics table becomes AnalyticsOnExecute of its old value |
| Indexer.EntityStore.GrantUser | envio/src/DelegationHandler.ts:92-99 | The user table becomes UsersOnGrant of its old value |
| Indexer.EntityStore.RevokeUser | envio/src/DelegationHandler.ts:138-141 | The user table becomes UsersOnRevoke of its old value |
| Indexer.EntityStore.SendUser | envio/src/DelegationHandler.ts:192-198 | The executor's row is read, updated and written back; the table stays valid |
| Indexer.EntityStore.ReceiveUser | envio/src/DelegationHandler.ts:201-210 | The recipient's row is read after the sender's write, updated and written back |
| Indexer.EntityStore.GrantDay | envio/src/DelegationHandler.ts:102-116 | The daily table becomes DailyOnGrant of its old value |
| Indexer.EntityStore.RevokeDay | envio/src/DelegationHandler.ts:144-158 | The daily table becomes DailyOnRevoke of its old value |
| Indexer.EntityStore.ExecuteDay | envio/src/DelegationHandler.ts:213-230 | The daily table becomes DailyOnExecute of its old value |
| Indexer.EntityStore.GrantPermission | envio/src/DelegationHandler.ts:64-82 | The permission table becomes PermissionsOnGrant of its old value |
| Indexer.EntityStore.RevokePermission | envio/src/DelegationHandler.ts:125-129 | The permission table becomes PermissionsOnRevoke of its old value |
| Indexer.EntityStore.RecordPayment | envio/src/DelegationHandler.ts:167-180 | The payment table becomes PaymentsOnExecute of its old value |
| Indexer.EntityStore.TransferOut | envio/src/ERC20Handler.ts:47-54 | An existing sender row gets the sender update; otherwise nothing is written |
| Indexer.EntityStore.TransferIn | envio/src/ERC20Handler.ts:56-63 | An existing receiver row (re-read) gets the receiver update; otherwise nothing is written |
| Indexer.EntityStore.OnPermissionGranted | envio/src/DelegationHandler.ts:59-117 | The handler leaves the store equal to Grant of the old store and keeps the invariant |
| Indexer.EntityStore.OnPermissionRevoked | envio/src/DelegationHandler.ts:120-159 | The handler leaves the store equal to Revoke of the old store and keeps the invariant |
| Indexer.EntityStore.OnDelegationExecuted | envio/src/DelegationHandler.ts:162-231 | The handler leaves the store equal to Execute of the old store and keeps the invariant |
| Indexer.EntityStore.OnTransfer | envio/src/ERC20Handler.ts:20-64 | The handler leaves the store equal to Transfer of the old store (unchanged for mint or burn) and keeps the invariant |
| Indexer.EntityStore.Handle | envio/src/DelegationHandler.ts:59-231 | Delivering any event through its handler leaves the store equal to Apply of the old store and keeps the invariant |
| Text.Lowercase | envio/src/ERC20Handler.ts:47 | `toLowerCase()`: same length, each character lowered, result lowercase; idempotent |
| Text.PadStart | src/lib/wallet.ts:176 | `padStart`: length is the larger of the width and the input's, the input is the suffix, the prefix is all fill characters |
| Text.Take | src/lib/wallet.ts:176 | `slice(0, n)`: a prefix of length `min(n, len)` |
| Text.TakeLast | src/lib/wallet.ts:168 | `slice(-n)`: a suffix of length `min(n, len)` |
| Decimal.NatToString | envio/src/DelegationHandler.ts:167 | Decimal rendering: digits only, no leading zero except for 0 |
| Decimal.ParseNatToString | envio/src/DelegationHandler.ts:167 | Reading a rendered numeral back gives the number |
| Decimal.TruncDiv | src/lib/wallet.ts:174 | BigInt `/`: the quotient rounded toward zero |
| Decimal.TruncRem | src/lib/wallet.ts:175 | BigInt `%`: `a = b*q + r` with the remainder taking the dividend's sign |
| Decimal.FloorDiv | src/hooks/useSubscriptions.ts:121-122 | `Math.floor(a / b)`: the floor quotient, for either sign of divisor |
| Seqs.Filter | src/stores/walletStore.ts:68-70 | `filter`: exactly the elements that pass, no more |
| Seqs.FilterMultiplicity | src/stores/walletStore.ts:68-70 | Each passing element keeps its multiplicity; the rest are gone |
| Seqs.FilterConcat | src/stores/walletStore.ts:87 | Filtering distributes over concatenation, so relative order is kept |
| Seqs.FilterIdempotent | src/stores/walletStore.ts:87 | Filtering twice by the same test equals filtering once |
| Types.Merge | src/stores/walletStore.ts:81 | `{ ...sub, ...updates }`: an update's status and id win, absent ones keep the old value |
| Types.MergeStatus | src/hooks/useSubscriptions.ts:80 | A status-only update changes the status and nothing else |
| Wallet.FormatAddress | src/lib/wallet.ts:167-169 | The first up-to-6 characters, `"..."`, and the last up-to-4 characters |
| Wallet.FormatAddressLong | src/lib/wallet.ts:167-169 | For 10 or more characters the result has length 13 and, with the elided middle, rebuilds the address |
| Wallet.FormatAmount | src/lib/wallet.ts:172-178 | With at least two decimals the rendering ends in a dot and two characters; its value is stated by FormatAmountTruncates and FormatAmountRoundTrip, and its behaviour on negative amounts by FormatAmountNegative |
| Wallet.FormatAmountTruncates | src/lib/wallet.ts:172-178 | For amounts >= 0 and >= 2 decimals: the whole part, a dot and exactly two digits of the amount in hundredths rounded down |
| Wallet.FormatAmountRoundTrip | src/lib/wallet.ts:172-178 | Reading a rendering back gives the amount in hundredths, rounded down (never rounded up) |
| Wallet.FormatAmountFewDecimals | src/lib/wallet.ts:172-178 | With 0 decimals the fraction is `"0"`; with 1 decimal it is the single last digit |
| Wallet.FormatAmountFiveUsdc | src/lib/wallet.ts:172-178 | 5000000 base units at 6 decimals render as `"5.00"` |
| Wallet.FormatAmountCutsFraction | src/lib/wallet.ts:172-178 | 1999999 base units at 6 decimals render as `"1.99"`, not `"2.00"` |
| Wallet.FormatAmountNegative | src/lib/wallet.ts:172-178 | As written, -1500000 renders as `"-1.-5"` |
| Wallet.FormatSignedAmount | src/lib/wallet.ts:172-178 | Corrected rendering: the sign, then the rendering of the magnitude |
| Wallet.FormatSignedAmountRoundTrip | src/lib/wallet.ts:172-178 | Corrected rendering reads back as sign and magnitude in hundredths for every amount |
| Wallet.FormatSignedAmountNegative | src/lib/wallet.ts:172-178 | Corrected rendering of -1500000 is `"-1.50"` |
| Wallet.OrString | src/lib/wallet.ts:113 | `s \|\| fallback`: a missing or empty string takes the fallback |
| Wallet.OrNumber | src/lib/wallet.ts:114 | `n \|\| fallback`: a missing or zero number takes the fallback |
| Wallet.TypeTag | src/lib/wallet.ts:110 | Periodic terms carry `erc20-token-periodic`, stream terms `erc20-token-stream` |
| Wallet.BuildPermissionRequest | src/lib/wallet.ts:87-135 | Sepolia chain id, adjustment allowed, signer the session account, expiry now + durationDays*86400; periodic exactly when the payment type is periodic, with amount from `periodAmount \|\| '0'` and a non-zero duration defaulting to 86400; stream with start time now and the three amounts defaulted to `'0'`; justifications with their fallbacks |
| WalletStore.SetConnected | src/stores/walletStore.ts:51 | Sets `isConnected` and nothing else |
| WalletStore.SetAddress | src/stores/walletStore.ts:53 | Sets `address` and nothing else |
| WalletStore.SetChainId | src/stores/walletStore.ts:55 | Sets `chainId` and nothing else |
| WalletStore.SetIsMetaMaskFlask | src/stores/walletStore.ts:57 | Sets `isMetaMaskFlask` and nothing else |
| WalletStore.SetSessionAccount | src/stores/walletStore.ts:59 | Sets `sessionAccount` and nothing else |
| WalletStore.InitSessionAccount | src/hooks/useWallet.ts:119-125 | Returns the stored session account when there is one; otherwise stores the newly generated account and returns it. Afterwards the store holds the returned account and nothing else has changed |
| WalletStore.InitSessionAccountStable | src/hooks/useWallet.ts:119-125 | Once an account is stored, initialising again returns it and leaves the state alone, whatever key pair would be generated |
| WalletStore.AddGrantedPermission | src/stores/walletStore.ts:61-64 | Appends: length +1, earlier entries in place, new entry last, other fields unchanged |
| WalletStore.RemoveGrantedPermission | src/stores/walletStore.ts:66-71 | Exactly the entries with another context remain; other fields unchanged |
| WalletStore.RemoveGrantedPermissionExact | src/stores/walletStore.ts:66-71 | Other entries keep their multiplicity, matching ones are gone, and order is kept across any split |
| WalletStore.AddThenRemoveGrantedPermission | src/stores/walletStore.ts:61-71 | Removing the context of a just-added permission equals removing it from the state before the add |
| WalletStore.AddSubscription | src/stores/walletStore.ts:73-76 | Appends: length +1, earlier entries and order unchanged, new entry last |
| WalletStore.UpdateById | src/stores/walletStore.ts:80-82 | `map`: same length; each entry with the id is merged with the updates, the others are unchanged |
| WalletStore.UpdateSubscription | src/stores/walletStore.ts:78-83 | Matching subscriptions merged with the updates, others and the length unchanged, other fields unchanged |
| WalletStore.UpdateUnknownId | src/stores/walletStore.ts:78-83 | Updating an id no subscription has is a no-op |
| WalletStore.RemoveSubscription | src/stores/walletStore.ts:85-88 | Exactly the subscriptions with another id remain; none with that id is left |
| WalletStore.RemoveSubscriptionExact | src/stores/walletStore.ts:85-88 | Other entries keep their multiplicity; removing twice equals removing once |
| WalletStore.RemoveSubscriptionKeepsOrder | src/stores/walletStore.ts:85-88 | Removal distributes over any split of the list, so survivors keep their order |
| WalletStore.AddThenRemoveSubscription | src/stores/walletStore.ts:73-88 | Removing the id of a just-added subscription equals removing it from the state before the add |
| WalletStore.Reset | src/stores/walletStore.ts:90 | Disconnected, no address, chain or session account, not Flask, empty permission and subscription lists |
| Subscriptions.StatusChange | src/hooks/useSubscriptions.ts:78-99 | Only the status of the subscriptions with the id changes |
| Subscriptions.PauseSubscription | src/hooks/useSubscriptions.ts:78-83 | Matching subscriptions become paused with nothing else changed |
| Subscriptions.ResumeSubscription | src/hooks/useSubscriptions.ts:86-91 | Matching subscriptions become active with nothing else changed |
| Subscriptions.CancelSubscription | src/hooks/useSubscriptions.ts:94-99 | Matching subscriptions become cancelled with nothing else changed |
| Subscriptions.ResumeAfterCancel | src/hooks/useSubscriptions.ts:86-99 | No guard on the prior status: a cancelled subscription can be resumed to active |
| Subscriptions.GetSubscriptionsByCategory | src/hooks/useSubscriptions.ts:102-107 | Exactly the subscriptions of the category |
| Subscriptions.GetActiveSubscriptions | src/hooks/useSubscriptions.ts:110-112 | Exactly the active subscriptions |
| Subscriptions.QueriesExact | src/hooks/useSubscriptions.ts:102-112 | Both queries keep each selected entry's multiplicity and drop the rest |
| Subscriptions.PeriodsPerMonth | src/hooks/useSubscriptions.ts:121-122 | The number of whole periods that fit in 30 days |
| Subscriptions.PeriodsPerMonthOfPresets | src/hooks/useSubscriptions.ts:121-122 | Hourly 720, daily 30, weekly 4, monthly 1, yearly 0 periods per month |
| Subscriptions.MonthlyAmount | src/hooks/useSubscriptions.ts:119-127 | Periodic: amount times whole periods per month; stream: rate times 2592000; missing or zero amount or duration: 0 |
| Subscriptions.TotalConcat | src/hooks/useSubscriptions.ts:118-128 | The running total of a concatenation is the sum of the totals |
| Subscriptions.MonthlySpending | src/hooks/useSubscriptions.ts:115-129 | With no active subscription the estimate is 0; MonthlySpendingConcat, MonthlySpendingInsert, MonthlySpendingNonNegative and StoppedTotal state how it moves |
| Subscriptions.MonthlySpendingConcat | src/hooks/useSubscriptions.ts:115-129 | Monthly spending distributes over list concatenation |
| Subscriptions.MonthlyAmountNonNegative | src/hooks/useSubscriptions.ts:119-127 | A subscription without negative amounts or durations contributes at least 0 |
| Subscriptions.MonthlySpendingNonNegative | src/hooks/useSubscriptions.ts:115-129 | The monthly total of such subscriptions is at least 0 |
| Subscriptions.MonthlySpendingInsert | src/hooks/useSubscriptions.ts:115-129 | A non-active subscription never changes the total wherever it is; an active well-formed one never lowers it |
| Subscriptions.StopMatchingTotal | src/hooks/useSubscriptions.ts:78-129 | Giving the subscriptions with an id a non-active status, in a well-formed list, never raises the monthly total |
| Subscriptions.StoppedTotal | src/hooks/useSubscriptions.ts:78-129 | Setting a non-active status on the matching subscriptions of a well-formed list never raises the monthly total |
| Subscriptions.PauseOrCancelNeverRaises | src/hooks/useSubscriptions.ts:78-129 | Pausing or cancelling never raises the monthly total |
| Subscriptions.NewSubscription | src/hooks/useSubscriptions.ts:29-60 | Status active, totalPaid 0, context and expiry from the wallet, id `sub_<now>_<suffix>`, start and creation time now; periodAmount only for periodic, the stream amounts only for stream |
| Subscriptions.CreateSubscription | src/hooks/useSubscriptions.ts:17-75 | The session account is the stored one, or the newly generated one, which is then stored. The new subscription is appended, then the granted permission carrying the request built for that account's address. No other field changes |
| Subscriptions.CreateSubscriptionCounts | src/hooks/useSubscriptions.ts:29-70 | A created subscription is among the active ones, and a well-formed one never lowers the monthly total |

## Left out

- Logging (`context.log.info`), the zustand `persist` middleware and its localStorage slice, and the async/await plumbing of the entity store. Events are delivered one at a time, so `get` and `set` are synchronous map operations.
- `transferId` in the ERC-20 handler is computed and never stored, so it has no counterpart.
- Entities.DayIndex: the `YYYY-MM-DD` string key is replaced by the UTC day number `timestamp / 86400`, which picks the same day window. The civil-calendar formatting of `toISOString` is not modelled.
- Text.Lowercase: lowers ASCII letters only. `toLowerCase()` also lowers non-ASCII letters, which hex addresses do not contain.
- Wallet.FormatAmount: takes `10 ** decimals` as the exact power of ten. A JavaScript number represents it exactly only up to 10^22.
- Wallet.BuildPermissionRequest: `Date.now()` is the parameter `nowMs`, and viem's `parseUnits` is an uninterpreted function parameter.
- Subscriptions.NewSubscription: the three `Date.now()` reads inside the record are taken as one reading. `Math.random().toString(36).slice(2, 9)` is the parameter `randomSuffix`.
- The wallet's answer (`context`, `expiry`), the key pair `createSessionAccount` would generate (`newAccount`) and the clock reading taken before the wallet call are parameters of `CreateSubscription`. The MetaMask request and its errors are not modelled. In particular, a rejected request still leaves a newly stored session account behind, and the model has no such error path.
- Subscriptions.PeriodsPerMonth: durations are integers. `Math.floor(2592000 / d)` on floats equals the integer floor quotient for every integer `d`, because the floating quotient's error is far below `1/d`. Fractional durations, `NaN` and infinities are not modelled.
- The wallet RPC functions (`isMetaMaskAvailable`, `checkIsMetaMaskFlask`, `connectWallet`, `switchToSepolia`, `createSessionAccount`, `requestPermissions`, `getWalletClient`) and the `useWallet` hook apart from `initSessionAccount` are not part of this model.
- React components and pages, `SmartInsights` (float arithmetic and demo data) and the GraphQL client in `src/lib/envio.ts` are not part of this model.
- Yearly subscriptions contribute nothing to the monthly total (`PeriodsPerMonthOfPresets`), because only whole periods per month are counted. This is what the code does. The create form offers no yearly period, so it is recorded here rather than as a defect.

## Findings

| source | as written | input that shows it | evidently intended | confidence | as-written member | corrected member |
|---|---|---|---|---|---|---|
| src/lib/wallet.ts:172-178 | BigInt `%` keeps the dividend's sign, so a negative amount's padded remainder starts with `-` and `slice(0, 2)` keeps the sign and one digit | amount -1500000, 6 decimals gives `"-1.-5"`; -500000 gives `"0.-5"`, which also loses the sign of the value | `"-1.50"` and `"-0.50"`: the sign, then the magnitude's two-decimal rendering | high for the input shown (not executed); amounts shown by the app are normally non-negative | Wallet.FormatAmountNegative | Wallet.FormatSignedAmount |
