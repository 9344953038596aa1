/** Values shared by both hooks: addresses, chain ids and the session's opaque objects. */
module Web3 {
  import opened Wrappers

  type Address = string
  type ChainId = int

  /** An opaque object held by the session (a signer, a contract binding). */
  datatype Handle = Handle(id: nat)

  /** The static RPC provider; only its chain id is read here. */
  datatype Provider = Provider(chainId: ChainId)

  /** JavaScript truthiness of an optional string: absent and `""` are both falsy. */
  predicate Truthy(s: Option<string>) {
    s.Some? && s.value != ""
  }
}
