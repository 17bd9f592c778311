/** The records the wizard, the deployers and the store exchange
    (frontend/src/types/token.types.ts) and the claim-topic constants
    (frontend/src/utils/compliancePresets.ts). */
module TokenTypes {
  import opened Common

  /** Claim topic identifiers. */
  const KYC := 1
  const AML := 2
  const ACCREDITATION := 3
  const INVESTOR_TYPE := 4

  /** A token configuration as the store holds it (`Partial<TokenConfig>`):
      every field may be absent. `decimals` and `maxInvestors` are integers
      here; the text input that feeds `decimals` is not part of this model. */
  datatype TokenConfig = TokenConfig(
    name: Option<string>,
    symbol: Option<string>,
    decimals: Option<int>,
    initialSupply: Option<string>,
    claimTopics: Option<seq<int>>,
    trustedIssuers: Option<seq<Address>>,
    issuerClaimTopics: Option<seq<seq<int>>>,
    maxInvestors: Option<int>,
    maxTokensPerInvestor: Option<string>,
    allowedCountries: Option<seq<string>>)

  /** The configuration with no field present, i.e. the empty payload `{}`. */
  const EmptyConfig := TokenConfig(None, None, None, None, None, None, None, None, None, None)

  /** The six per-token contracts of one deployed suite, plus who deployed it and when (ms). */
  datatype DeployedTokenSuite = DeployedTokenSuite(
    token: Address,
    identityRegistry: Address,
    identityRegistryStorage: Address,
    compliance: Address,
    claimTopicsRegistry: Address,
    trustedIssuersRegistry: Address,
    deployer: Address,
    timestamp: int)

  /** The six implementation contracts, by role. */
  datatype Implementations = Implementations(
    token: Address,
    claimTopicsRegistry: Address,
    trustedIssuersRegistry: Address,
    identityRegistryStorage: Address,
    identityRegistry: Address,
    modularCompliance: Address)

  /** The infrastructure a completed orchestration run yields. */
  datatype ContractAddresses = ContractAddresses(
    implementations: Implementations,
    implementationAuthority: Address,
    trexFactory: Address,
    trexGateway: Address)
}
