/** The wizard's token store (frontend/src/redux/tokenSlice.ts): the current
    step, the configuration being edited, and the outcome of both
    deployments. Each reducer assigns fields of the one store object. */
module TokenSlice {
  import opened Common
  import opened TokenTypes

  /** `{ ...base, ...patch }` on configurations: every field the patch has
      takes the patch's value, every other field keeps the base's. */
  function Merge(base: TokenConfig, patch: TokenConfig): (r: TokenConfig)
  {
    TokenConfig(
      if patch.name.Some? then patch.name else base.name,
      if patch.symbol.Some? then patch.symbol else base.symbol,
      if patch.decimals.Some? then patch.decimals else base.decimals,
      if patch.initialSupply.Some? then patch.initialSupply else base.initialSupply,
      if patch.claimTopics.Some? then patch.claimTopics else base.claimTopics,
      if patch.trustedIssuers.Some? then patch.trustedIssuers else base.trustedIssuers,
      if patch.issuerClaimTopics.Some? then patch.issuerClaimTopics else base.issuerClaimTopics,
      if patch.maxInvestors.Some? then patch.maxInvestors else base.maxInvestors,
      if patch.maxTokensPerInvestor.Some? then patch.maxTokensPerInvestor else base.maxTokensPerInvestor,
      if patch.allowedCountries.Some? then patch.allowedCountries else base.allowedCountries)
  }

  /** The configuration a new wizard starts from. */
  const InitialConfig := EmptyConfig.(
    decimals := Some(18),
    claimTopics := Some([]),
    trustedIssuers := Some([]),
    issuerClaimTopics := Some([]),
    maxInvestors := Some(2000),
    allowedCountries := Some([]))

  /** A snapshot of the store. */
  datatype TokenState = TokenState(
    currentStep: int,
    config: TokenConfig,
    deployedSuite: Option<DeployedTokenSuite>,
    contractAddresses: Option<ContractAddresses>,
    isDeploying: bool,
    deploymentError: Option<string>,
    isDeployingContracts: bool,
    contractDeploymentError: Option<string>)

  const InitialState := TokenState(0, InitialConfig, None, None, false, None, false, None)

  /** The state `resetWizard` leaves: the initial one, except that both
      in-progress flags keep their values. */
  function ResetState(s: TokenState): (r: TokenState)
    ensures r.isDeploying == s.isDeploying && r.isDeployingContracts == s.isDeployingContracts
    ensures r.(isDeploying := false, isDeployingContracts := false) == InitialState
  {
    s.(currentStep := 0, config := InitialConfig, deployedSuite := None, deploymentError := None,
       contractAddresses := None, contractDeploymentError := None)
  }

  class TokenStore {
    var currentStep: int
    var config: TokenConfig
    var deployedSuite: Option<DeployedTokenSuite>
    var contractAddresses: Option<ContractAddresses>
    var isDeploying: bool
    var deploymentError: Option<string>
    var isDeployingContracts: bool
    var contractDeploymentError: Option<string>

    function State(): TokenState
      reads this
    {
      TokenState(currentStep, config, deployedSuite, contractAddresses, isDeploying,
                 deploymentError, isDeployingContracts, contractDeploymentError)
    }

    constructor ()
      ensures State() == InitialState
    {
      currentStep := 0;
      config := InitialConfig;
      deployedSuite := None;
      contractAddresses := None;
      isDeploying := false;
      deploymentError := None;
      isDeployingContracts := false;
      contractDeploymentError := None;
    }

    method SetCurrentStep(step: int)
      modifies this
      ensures State() == old(State()).(currentStep := step)
    {
      currentStep := step;
    }

    method UpdateConfig(patch: TokenConfig)
      modifies this
      ensures State() == old(State()).(config := Merge(old(config), patch))
    {
      config := Merge(config, patch);
    }

    method SetDeploying(flag: bool)
      modifies this
      ensures State() == old(State()).(isDeploying := flag)
    {
      isDeploying := flag;
    }

    method SetDeployedSuite(suite: DeployedTokenSuite)
      modifies this
      ensures State() == old(State()).(deployedSuite := Some(suite), isDeploying := false)
    {
      deployedSuite := Some(suite);
      isDeploying := false;
    }

    method SetDeploymentError(message: Option<string>)
      modifies this
      ensures State() == old(State()).(deploymentError := message, isDeploying := false)
    {
      deploymentError := message;
      isDeploying := false;
    }

    method SetContractAddresses(addresses: Option<ContractAddresses>)
      modifies this
      ensures State() == old(State()).(contractAddresses := addresses, isDeployingContracts := false,
                                       contractDeploymentError := None)
    {
      contractAddresses := addresses;
      isDeployingContracts := false;
      contractDeploymentError := None;
    }

    method SetDeployingContracts(flag: bool)
      modifies this
      ensures State() == old(State()).(isDeployingContracts := flag)
    {
      isDeployingContracts := flag;
    }

    method SetContractDeploymentError(message: Option<string>)
      modifies this
      ensures State() == old(State()).(contractDeploymentError := message, isDeployingContracts := false)
    {
      contractDeploymentError := message;
      isDeployingContracts := false;
    }

    method ResetWizard()
      modifies this
      ensures State() == ResetState(old(State()))
    {
      currentStep := 0;
      config := InitialConfig;
      deployedSuite := None;
      deploymentError := None;
      contractAddresses := None;
      contractDeploymentError := None;
    }
  }

  // ---------------------------------------------------------------------
  // Properties of the merge

  /** A field-wise reading of `Merge`: a present patch field wins, an absent one keeps the base. */
  lemma MergeFields(base: TokenConfig, patch: TokenConfig)
    ensures var r := Merge(base, patch);
      && (patch.name.Some? ==> r.name == patch.name) && (patch.name.None? ==> r.name == base.name)
      && (patch.symbol.Some? ==> r.symbol == patch.symbol) && (patch.symbol.None? ==> r.symbol == base.symbol)
      && (patch.decimals.Some? ==> r.decimals == patch.decimals) && (patch.decimals.None? ==> r.decimals == base.decimals)
      && (patch.claimTopics.Some? ==> r.claimTopics == patch.claimTopics)
      && (patch.claimTopics.None? ==> r.claimTopics == base.claimTopics)
      && (patch.trustedIssuers.Some? ==> r.trustedIssuers == patch.trustedIssuers)
      && (patch.trustedIssuers.None? ==> r.trustedIssuers == base.trustedIssuers)
      && (patch.issuerClaimTopics.Some? ==> r.issuerClaimTopics == patch.issuerClaimTopics)
      && (patch.issuerClaimTopics.None? ==> r.issuerClaimTopics == base.issuerClaimTopics)
      && (patch.allowedCountries.Some? ==> r.allowedCountries == patch.allowedCountries)
      && (patch.allowedCountries.None? ==> r.allowedCountries == base.allowedCountries)
  {
  }

  /** The empty payload changes nothing, and a patch applied to the empty configuration is the patch. */
  lemma MergeIdentity(c: TokenConfig)
    ensures Merge(c, EmptyConfig) == c
    ensures Merge(EmptyConfig, c) == c
  {
  }

  /** Applying the same payload twice is the same as applying it once. */
  lemma MergeIdempotent(base: TokenConfig, patch: TokenConfig)
    ensures Merge(Merge(base, patch), patch) == Merge(base, patch)
  {
  }

  /** Two successive payloads act as their own merge: the later one wins field by field. */
  lemma MergeAssociative(base: TokenConfig, p: TokenConfig, q: TokenConfig)
    ensures Merge(Merge(base, p), q) == Merge(base, Merge(p, q))
  {
  }

  /** The initial configuration has the documented defaults and no name, symbol or supply. */
  lemma InitialConfigDefaults()
    ensures InitialConfig.decimals == Some(18) && InitialConfig.maxInvestors == Some(2000)
    ensures InitialConfig.claimTopics == Some([]) && InitialConfig.trustedIssuers == Some([])
    ensures InitialConfig.issuerClaimTopics == Some([]) && InitialConfig.allowedCountries == Some([])
    ensures InitialConfig.name.None? && InitialConfig.symbol.None? && InitialConfig.initialSupply.None?
    ensures InitialState.currentStep == 0 && !InitialState.isDeploying && !InitialState.isDeployingContracts
    ensures InitialState.deployedSuite.None? && InitialState.contractAddresses.None?
    ensures InitialState.deploymentError.None? && InitialState.contractDeploymentError.None?
  {
  }
}
