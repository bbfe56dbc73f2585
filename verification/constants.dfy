/** Application constants of the client. */
module Constants {

  /** Chain id of Sepolia, the default and only supported chain (hex 0xaa36a7). */
  const SEPOLIA_CHAIN_ID: int := 11155111

  const USDC_ADDRESS: string := "0x1c7D4B196Cb0C7B01d743Fbc6116a902379C7238"
  const USDC_DECIMALS: nat := 6

  /** ERC-7715 permission type tags. */
  const PERMISSION_TYPE_PERIODIC: string := "erc20-token-periodic"
  const PERMISSION_TYPE_STREAM: string := "erc20-token-stream"

  /** Subscription periods in seconds; a month is 30 days and a year 365. */
  const PERIOD_HOURLY: int := 3600
  const PERIOD_DAILY: int := 86400
  const PERIOD_WEEKLY: int := 604800
  const PERIOD_MONTHLY: int := 2592000
  const PERIOD_YEARLY: int := 31536000

  const DEFAULT_EXPIRY_SECONDS: int := 604800

  const APP_NAME: string := "FlowPay"
}
