/** The token and chain constants the mass-pay core is configured with. */
module Constants {

  /** An ERC-20 token as described to the signing and encoding code. */
  datatype Token = Token(chainId: nat, address: string, decimals: nat, symbol: string, name: string)

  /** Chain id of the Base network, the only chain the application targets. */
  const BaseChainId: nat := 8453

  const SbcContractAddress: string := "0xfdcC3dd6671eaB0709A4C0f3F53De9a333d80798"

  /** The SBC stable coin: 18 decimal places, EIP-712 domain name "Stable Coin". */
  const SBC: Token := Token(BaseChainId, SbcContractAddress, 18, "SBC", "Stable Coin")
}
