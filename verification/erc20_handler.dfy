/**
 * The ERC-20 Transfer rule of the indexer. It only adds volume to User rows that already
 * exist; it never creates rows and never touches the other tables. Mints and burns (either
 * side being the zero address) are ignored.
 */
module Erc20Handler {

  import opened Text
  import opened Entities

  /** The zero address, compared against the event's addresses as delivered (not lowercased). */
  const ZERO_ADDRESS: string := "0x0000000000000000000000000000000000000000"

  datatype TransferEvent = TransferEvent(
    from: string,
    to: string,
    value: nat,
    block: Block,
    txHash: string,
    logIndex: nat)

  predicate IsMintOrBurn(e: TransferEvent) {
    e.from == ZERO_ADDRESS || e.to == ZERO_ADDRESS
  }

  /** The sender's half of a transfer: volume sent and last activity, no counter. */
  function TransferOutRow(u: User, value: nat, timestamp: int): (u': User)
    ensures UserValid(u) ==> UserValid(u')
  {
    u.(totalVolumeSent := u.totalVolumeSent + value, lastActivityAt := timestamp)
  }

  /** The receiver's half of a transfer: volume received and last activity, no counter. */
  function TransferInRow(u: User, value: nat, timestamp: int): (u': User)
    ensures UserValid(u) ==> UserValid(u')
  {
    u.(totalVolumeReceived := u.totalVolumeReceived + value, lastActivityAt := timestamp)
  }

  /**
   * The User table after a transfer: an existing sender row is updated first, then the
   * receiver row is looked up again, so a self-transfer adds to both volumes of one row.
   */
  function UsersOnTransfer(t: map<string, User>, from: string, to: string, value: nat, timestamp: int): (r: map<string, User>)
    ensures r.Keys == t.Keys
    ensures forall a :: a in t && a != from && a != to ==> r[a] == t[a]
    ensures UsersValid(t) ==> UsersValid(r)
  {
    var t1 := if from in t then t[from := TransferOutRow(t[from], value, timestamp)] else t;
    if to in t1 then t1[to := TransferInRow(t1[to], value, timestamp)] else t1
  }

  /**
   * What a transfer does to the two rows it can touch: for distinct addresses each existing
   * row gets its own half; a self-transfer's row gets both, so in every case an existing sender
   * gains exactly `value` sent and an existing receiver exactly `value` received; counters and
   * the first-activity latch never change.
   */
  lemma UsersOnTransferRows(t: map<string, User>, from: string, to: string, value: nat, timestamp: int)
    ensures var r := UsersOnTransfer(t, from, to, value, timestamp);
      && (from != to && from in t ==> r[from] == TransferOutRow(t[from], value, timestamp))
      && (from != to && to in t ==> r[to] == TransferInRow(t[to], value, timestamp))
      && (from == to && from in t ==>
            r[from] == TransferInRow(TransferOutRow(t[from], value, timestamp), value, timestamp))
      && (from in t ==> r[from].totalVolumeSent == t[from].totalVolumeSent + value && r[from].lastActivityAt == timestamp)
      && (to in t ==> r[to].totalVolumeReceived == t[to].totalVolumeReceived + value && r[to].lastActivityAt == timestamp)
      && forall a :: a in t ==>
           && r[a].totalPermissionsGranted == t[a].totalPermissionsGranted
           && r[a].activePermissions == t[a].activePermissions
           && r[a].totalPaymentsSent == t[a].totalPaymentsSent
           && r[a].totalPaymentsReceived == t[a].totalPaymentsReceived
           && r[a].firstActivityAt == t[a].firstActivityAt
  {
    var t1 := if from in t then t[from := TransferOutRow(t[from], value, timestamp)] else t;
    assert UsersOnTransfer(t, from, to, value, timestamp)
        == if to in t1 then t1[to := TransferInRow(t1[to], value, timestamp)] else t1;
  }

  /** USDC Transfer. */
  function Transfer(s: Store, e: TransferEvent): (r: Store)
    ensures IsMintOrBurn(e) ==> r == s
    ensures r.permissions == s.permissions && r.payments == s.payments
    ensures r.dailyStats == s.dailyStats && r.analytics == s.analytics
    ensures r.users.Keys == s.users.Keys
    ensures Valid(s) ==> Valid(r)
  {
    if IsMintOrBurn(e) then s
    else s.(users := UsersOnTransfer(s.users, Lowercase(e.from), Lowercase(e.to), e.value, e.block.timestamp))
  }
}
