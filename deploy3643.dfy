/** The token-suite deployer (frontend/src/utils/deploy3643.ts): one call
    to the gateway's `deployTREXSuite`, guarded by an authorization check,
    with a gas limit derived from an estimate, and the suite's addresses read
    back from the factory's `TREXSuiteDeployed` event. Also the block
    explorer link for an address.

    The gateway is an oracle (`SuiteEnv`): the answers of its two reads, the
    gas estimate, and the mined receipt's logs, each as already decoded (or
    not) under the factory interface. */
module TokenSuite {
  import opened Common
  import opened TokenTypes
  import WalletSlice

  /** The `_tokenDetails` bundle. `complianceSettings` are byte strings, written as hex text. */
  datatype TokenDetails = TokenDetails(
    owner: Address,
    name: Option<string>,
    symbol: Option<string>,
    decimals: Option<int>,
    irs: Address,
    onchainId: Address,
    irAgents: seq<Address>,
    tokenAgents: seq<Address>,
    complianceModules: seq<Address>,
    complianceSettings: seq<string>)

  /** The `_claimDetails` bundle. An entry of `issuerClaims` can be absent
      (`undefined`) when the configuration has no claim topics. */
  datatype ClaimDetails = ClaimDetails(
    claimTopics: Option<seq<int>>,
    issuers: seq<Address>,
    issuerClaims: seq<Option<seq<int>>>)

  /** The fields of `TREXSuiteDeployed`. */
  datatype SuiteEventArgs = SuiteEventArgs(token: Address, ir: Address, irs: Address, tir: Address, ctr: Address, mc: Address)

  datatype ParsedLog = ParsedLog(name: string, args: SuiteEventArgs)

  /** A receipt log: what `parseLog` yields for it, or None where it throws. */
  datatype Log = Log(decoded: Option<ParsedLog>)

  /** What happens to the deployment transaction: it is mined with a receipt,
      or submitting or waiting for it throws. */
  datatype Submission = Mined(logs: seq<Log>) | SubmitFailed(failure: Failure)

  /** The gateway's answers and the clock. `gasEstimate` is None where the estimate throws. */
  datatype SuiteEnv = SuiteEnv(
    publicStatus: Result<bool, Failure>,
    deployerStatus: Result<bool, Failure>,
    gasEstimate: Option<nat>,
    submission: Submission,
    now: int)

  /** A request sent to the gateway at `gateway`. */
  datatype GatewayCall =
    | ReadPublicStatus(gateway: Address)
    | ReadIsDeployer(gateway: Address, deployer: Address)
    | EstimateDeploy(gateway: Address, tokenDetails: TokenDetails, claimDetails: ClaimDetails)
    | SubmitDeploy(gateway: Address, tokenDetails: TokenDetails, claimDetails: ClaimDetails, gasLimit: nat)

  /** What the `try` body produces: the suite or the error it throws, and the requests it sent. */
  datatype SuiteRun = SuiteRun(outcome: Result<DeployedTokenSuite, Failure>, calls: seq<GatewayCall>)

  const SuiteEventName := "TREXSuiteDeployed"
  const DefaultGasLimit := 8000000
  const NoProviderMessage := "No provider available from signer"
  const NotAuthorizedMessage := "You are not authorized to deploy tokens."
  const EventNotFoundMessage := "TREXSuiteDeployed event not found"
  const FundsMessage := "Insufficient funds for deployment."
  const RejectedMessage := "Transaction was rejected."

  // ---------------------------------------------------------------------
  // The argument bundles

  function TokenDetailsOf(config: TokenConfig, owner: Address): (td: TokenDetails)
  {
    TokenDetails(owner, config.name, config.symbol, config.decimals, ZeroAddress, ZeroAddress,
                 [owner], [owner], [], [])
  }

  /** `issuerClaimTopics?.[i] || claimTopics`: a defined entry is kept even
      when empty (arrays are truthy); a missing one falls back to the token's topics. */
  function IssuerClaimsAt(config: TokenConfig, i: nat): Option<seq<int>>
  {
    if config.issuerClaimTopics.Some? && i < |config.issuerClaimTopics.value|
    then Some(config.issuerClaimTopics.value[i])
    else config.claimTopics
  }

  function ClaimDetailsOf(config: TokenConfig): (cd: ClaimDetails)
    ensures |cd.issuerClaims| == |cd.issuers|
  {
    var issuers := if config.trustedIssuers.Some? then config.trustedIssuers.value else [];
    ClaimDetails(config.claimTopics, issuers, seq(|issuers|, i requires 0 <= i < |issuers| => IssuerClaimsAt(config, i)))
  }

  /** `BigNumber.toNumber` throws for values a double cannot hold exactly (2^53 and above). */
  const SafeIntegerBound := 0x20_0000_0000_0000

  /** The gas limit: the default when estimation fails or the estimate is
      too large for `toNumber` (the throw is caught inside the same try),
      otherwise the estimate times 1.2 rounded down. */
  function GasLimit(estimate: Option<nat>): (limit: nat)
    ensures estimate.None? ==> limit == DefaultGasLimit
    ensures estimate.Some? && estimate.value >= SafeIntegerBound ==> limit == DefaultGasLimit
    ensures estimate.Some? && estimate.value < SafeIntegerBound ==> limit >= estimate.value
    ensures estimate.Some? && estimate.value < SafeIntegerBound ==> 5 * limit <= 6 * estimate.value < 5 * (limit + 1)
  {
    match estimate
    case None => DefaultGasLimit
    case Some(e) => if e >= SafeIntegerBound then DefaultGasLimit else (e * 6) / 5
  }

  // ---------------------------------------------------------------------
  // The receipt scan

  predicate IsSuiteEvent(log: Log)
  {
    log.decoded.Some? && log.decoded.value.name == SuiteEventName
  }

  /** The index of the first log that decodes as `TREXSuiteDeployed`. */
  function FirstSuiteLog(logs: seq<Log>): (r: Option<nat>)
    ensures r.Some? ==> r.value < |logs| && IsSuiteEvent(logs[r.value])
    ensures r.Some? ==> forall k :: 0 <= k < r.value ==> !IsSuiteEvent(logs[k])
    ensures r.None? ==> forall k :: 0 <= k < |logs| ==> !IsSuiteEvent(logs[k])
  {
    if logs == [] then None
    else if IsSuiteEvent(logs[0]) then Some(0)
    else match FirstSuiteLog(logs[1..])
      case None => None
      case Some(i) => Some(i + 1)
  }

  /** The fields of the first `TREXSuiteDeployed` log, if any. */
  function FirstSuiteEvent(logs: seq<Log>): Option<SuiteEventArgs>
  {
    match FirstSuiteLog(logs)
    case None => None
    case Some(i) => Some(logs[i].decoded.value.args)
  }

  /** The loop over `receipt.logs`: logs that fail to decode are skipped,
      and the first that decodes as the suite event ends the scan. */
  method FindSuiteEvent(logs: seq<Log>) returns (trexEvent: Option<SuiteEventArgs>)
    ensures trexEvent == FirstSuiteEvent(logs)
  {
    trexEvent := None;
    var i := 0;
    while i < |logs|
      invariant 0 <= i <= |logs|
      invariant forall k :: 0 <= k < i ==> !IsSuiteEvent(logs[k])
    {
      var log := logs[i];
      if log.decoded.Some? {
        var parsed := log.decoded.value;
        if parsed.name == SuiteEventName {
          trexEvent := Some(parsed.args);
          break;
        }
      }
      i := i + 1;
    }
    FirstSuiteLogIs(logs, i);
  }

  lemma FirstSuiteLogIs(logs: seq<Log>, i: nat)
    requires i <= |logs| && (forall k :: 0 <= k < i ==> !IsSuiteEvent(logs[k]))
    requires i < |logs| ==> IsSuiteEvent(logs[i])
    ensures FirstSuiteLog(logs) == if i < |logs| then Some(i) else None
  {
    var r := FirstSuiteLog(logs);
    if r.Some? {
      assert r.value >= i;
    }
  }

  /** The suite record built from the event: each address from its own event field. */
  function SuiteOf(args: SuiteEventArgs, owner: Address, now: int): DeployedTokenSuite
  {
    DeployedTokenSuite(args.token, args.ir, args.irs, args.mc, args.ctr, args.tir, owner, now)
  }

  // ---------------------------------------------------------------------
  // The deployment

  /** The reference behaviour of the `try` body of `deployTokenSuite`. */
  function SuiteSpec(config: TokenConfig, signer: WalletSlice.Signer, addresses: ContractAddresses, env: SuiteEnv): SuiteRun
  {
    if !signer.hasProvider then SuiteRun(Err(Thrown(NoProviderMessage)), [])
    else
      var owner := signer.address;
      var gateway := addresses.trexGateway;
      var queries := [ReadPublicStatus(gateway), ReadIsDeployer(gateway, owner)];
      if env.publicStatus.Err? then SuiteRun(Err(env.publicStatus.error), queries)
      else if env.deployerStatus.Err? then SuiteRun(Err(env.deployerStatus.error), queries)
      else if !env.publicStatus.value && !env.deployerStatus.value then SuiteRun(Err(Thrown(NotAuthorizedMessage)), queries)
      else
        var td := TokenDetailsOf(config, owner);
        var cd := ClaimDetailsOf(config);
        var calls := queries + [EstimateDeploy(gateway, td, cd), SubmitDeploy(gateway, td, cd, GasLimit(env.gasEstimate))];
        match env.submission
        case SubmitFailed(f) => SuiteRun(Err(f), calls)
        case Mined(logs) =>
          match FirstSuiteEvent(logs)
          case None => SuiteRun(Err(Thrown(EventNotFoundMessage)), calls)
          case Some(args) => SuiteRun(Ok(SuiteOf(args, owner, env.now)), calls)
  }

  /** The catch of `deployTokenSuite`: the message the caller receives. */
  function MapSuiteError(f: Failure): string
  {
    CaughtMessage(f, FundsMessage, RejectedMessage)
  }

  /** The `try` body of `deployTokenSuite`. */
  method SuiteBody(config: TokenConfig, signer: WalletSlice.Signer, addresses: ContractAddresses, env: SuiteEnv)
    returns (outcome: Result<DeployedTokenSuite, Failure>, calls: seq<GatewayCall>)
    ensures SuiteRun(outcome, calls) == SuiteSpec(config, signer, addresses, env)
  {
    calls := [];
    if !signer.hasProvider {
      outcome := Err(Thrown(NoProviderMessage));
      return;
    }
    var ownerAddress := signer.address;
    var gateway := addresses.trexGateway;

    // Both reads are issued before either answer is looked at.
    calls := calls + [ReadPublicStatus(gateway), ReadIsDeployer(gateway, ownerAddress)];
    if env.publicStatus.Err? {
      outcome := Err(env.publicStatus.error);
      return;
    }
    if env.deployerStatus.Err? {
      outcome := Err(env.deployerStatus.error);
      return;
    }
    var isPublic, isDeployer := env.publicStatus.value, env.deployerStatus.value;
    if !isPublic && !isDeployer {
      outcome := Err(Thrown(NotAuthorizedMessage));
      return;
    }

    var tokenDetails := TokenDetailsOf(config, ownerAddress);
    var claimDetails := ClaimDetailsOf(config);

    var gasLimit: nat := DefaultGasLimit;
    calls := calls + [EstimateDeploy(gateway, tokenDetails, claimDetails)];
    if env.gasEstimate.Some? && env.gasEstimate.value < SafeIntegerBound {
      gasLimit := (env.gasEstimate.value * 6) / 5;
    }

    calls := calls + [SubmitDeploy(gateway, tokenDetails, claimDetails, gasLimit)];
    if env.submission.SubmitFailed? {
      outcome := Err(env.submission.failure);
      return;
    }

    var trexEvent := FindSuiteEvent(env.submission.logs);
    if trexEvent.None? {
      outcome := Err(Thrown(EventNotFoundMessage));
      return;
    }
    outcome := Ok(SuiteOf(trexEvent.value, ownerAddress, env.now));
  }

  /** `deployTokenSuite`: the body inside the catch that turns every failure into a message. */
  method DeployTokenSuite(config: TokenConfig, signer: WalletSlice.Signer, addresses: ContractAddresses, env: SuiteEnv)
    returns (result: Result<DeployedTokenSuite, string>, calls: seq<GatewayCall>)
    ensures var run := SuiteSpec(config, signer, addresses, env);
      && calls == run.calls
      && (run.outcome.Ok? ==> result == Ok(run.outcome.value))
      && (run.outcome.Err? ==> result == Err(MapSuiteError(run.outcome.error)))
  {
    var outcome;
    outcome, calls := SuiteBody(config, signer, addresses, env);
    match outcome {
      case Ok(suite) => result := Ok(suite);
      case Err(f) => result := Err(MapSuiteError(f));
    }
  }

  // ---------------------------------------------------------------------
  // The explorer link

  /** The explorer of each chain; local chains and unknown ones have none. */
  function ExplorerBase(chainId: int): string
  {
    if chainId == 1 then "https://etherscan.io"
    else if chainId == 11155111 then "https://sepolia.etherscan.io"
    else if chainId == 137 then "https://polygonscan.com"
    else if chainId == 42161 then "https://arbiscan.io"
    else ""
  }

  /** `getExplorerUrl`. */
  function ExplorerUrl(address: string, chainId: int): (url: string)
    ensures url != "" <==> chainId in {1, 11155111, 137, 42161}
    ensures url != "" ==> url == ExplorerBase(chainId) + "/address/" + address
    ensures chainId == 31337 || chainId == 1337 ==> url == ""
  {
    var baseUrl := ExplorerBase(chainId);
    if baseUrl == "" then "" else baseUrl + "/address/" + address
  }

  // ---------------------------------------------------------------------
  // Properties

  /** Without a provider, or with neither public deployment nor deployer
      status, nothing is estimated or submitted and the run fails with the
      matching message. */
  lemma GateBlocksSubmission(config: TokenConfig, signer: WalletSlice.Signer, addresses: ContractAddresses, env: SuiteEnv)
    requires !signer.hasProvider || (env.publicStatus == Ok(false) && env.deployerStatus == Ok(false))
    ensures var run := SuiteSpec(config, signer, addresses, env);
      && run.outcome.Err?
      && (forall c :: c in run.calls ==> !c.EstimateDeploy? && !c.SubmitDeploy?)
      && run.outcome.error == Thrown(if !signer.hasProvider then NoProviderMessage else NotAuthorizedMessage)
  {
  }

  /** Any submission goes out only for an authorized deployer, after the
      estimate, with the bundles built from the configuration and the limit
      the estimate gives. */
  lemma SubmissionOnlyWhenAuthorized(config: TokenConfig, signer: WalletSlice.Signer, addresses: ContractAddresses, env: SuiteEnv, i: nat)
    requires var calls := SuiteSpec(config, signer, addresses, env).calls; i < |calls| && calls[i].SubmitDeploy?
    ensures signer.hasProvider && env.publicStatus.Ok? && env.deployerStatus.Ok?
    ensures env.publicStatus.value || env.deployerStatus.value
    ensures var calls := SuiteSpec(config, signer, addresses, env).calls;
      && i == 3 && calls[2].EstimateDeploy?
      && calls[i] == SubmitDeploy(addresses.trexGateway, TokenDetailsOf(config, signer.address),
                                  ClaimDetailsOf(config), GasLimit(env.gasEstimate))
  {
  }

  /** The token bundle: the signer owns the token and is its only agent on
      both lists, the identity storage and identity are left to the factory
      (the zero address), and there are no compliance modules. */
  lemma TokenDetailsShape(config: TokenConfig, owner: Address)
    ensures var td := TokenDetailsOf(config, owner);
      && td.owner == owner && td.name == config.name && td.symbol == config.symbol && td.decimals == config.decimals
      && td.irs == ZeroAddress && td.onchainId == ZeroAddress
      && td.irAgents == [owner] && td.tokenAgents == [owner]
      && td.complianceModules == [] && td.complianceSettings == []
  {
  }

  /** The claim bundle: issuers are the trusted issuers (none when absent);
      entry i of issuerClaims is that issuer's own topic list whenever one is
      defined, even an empty one, and the token's topics otherwise. */
  lemma ClaimDetailsShape(config: TokenConfig)
    ensures var cd := ClaimDetailsOf(config);
      && cd.claimTopics == config.claimTopics
      && cd.issuers == (if config.trustedIssuers.Some? then config.trustedIssuers.value else [])
      && |cd.issuerClaims| == |cd.issuers|
      && (forall i :: 0 <= i < |cd.issuers| ==>
            (config.issuerClaimTopics.Some? && i < |config.issuerClaimTopics.value| ==>
               cd.issuerClaims[i] == Some(config.issuerClaimTopics.value[i]))
            && (config.issuerClaimTopics.None? || i >= |config.issuerClaimTopics.value| ==>
               cd.issuerClaims[i] == config.claimTopics))
      && (config.trustedIssuers.None? || config.trustedIssuers.value == [] ==> cd.issuerClaims == [])
  {
  }

  /** The scan finds the first decodable suite event, skipping logs that do
      not decode; with none it fails with the not-found message. */
  lemma ScanTakesFirstSuiteEvent(logs: seq<Log>, i: nat)
    requires i < |logs| && IsSuiteEvent(logs[i]) && forall k :: 0 <= k < i ==> !IsSuiteEvent(logs[k])
    ensures FirstSuiteEvent(logs) == Some(logs[i].decoded.value.args)
  {
    FirstSuiteLogIs(logs, i);
  }

  /** Logs that do not decode never change the outcome of the scan. */
  lemma UndecodableLogsAreSkipped(before: seq<Log>, after: seq<Log>)
    requires forall k :: 0 <= k < |before| ==> before[k].decoded.None?
    ensures FirstSuiteEvent(before + after) == FirstSuiteEvent(after)
  {
    var all := before + after;
    match FirstSuiteLog(after)
    case None =>
      FirstSuiteLogIs(all, |all|);
    case Some(j) =>
      assert all[|before| + j] == after[j];
      FirstSuiteLogIs(all, |before| + j);
  }

  /** A successful run returns the event's addresses in their roles, with the signer as deployer. */
  lemma SuiteMapsEventFields(config: TokenConfig, signer: WalletSlice.Signer, addresses: ContractAddresses, env: SuiteEnv)
    requires SuiteSpec(config, signer, addresses, env).outcome.Ok?
    ensures env.submission.Mined? && FirstSuiteEvent(env.submission.logs).Some?
    ensures var s := SuiteSpec(config, signer, addresses, env).outcome.value;
      var args := FirstSuiteEvent(env.submission.logs).value;
      && s.token == args.token && s.identityRegistry == args.ir && s.identityRegistryStorage == args.irs
      && s.compliance == args.mc && s.claimTopicsRegistry == args.ctr && s.trustedIssuersRegistry == args.tir
      && s.deployer == signer.address && s.timestamp == env.now
  {
  }

  /** The catch's branches; errors the body throws itself keep their message. */
  lemma MapSuiteErrorBranches(f: Failure)
    ensures f.code == InsufficientFunds ==> MapSuiteError(f) == FundsMessage
    ensures f.code == ActionRejected || f.code == UserRejected ==> MapSuiteError(f) == RejectedMessage
    ensures var other := f.code != InsufficientFunds && f.code != ActionRejected && f.code != UserRejected;
      && (other && f.reason != "" ==> MapSuiteError(f) == f.reason)
      && (other && f.reason == "" && f.message != "" ==> MapSuiteError(f) == f.message)
      && (other && f.reason == "" && f.message == "" ==> MapSuiteError(f) == "Deployment failed")
    ensures MapSuiteError(Thrown(NoProviderMessage)) == NoProviderMessage
    ensures MapSuiteError(Thrown(NotAuthorizedMessage)) == NotAuthorizedMessage
    ensures MapSuiteError(Thrown(EventNotFoundMessage)) == EventNotFoundMessage
  {
  }

  /** A link, when there is one, ends with the address. */
  lemma ExplorerUrlEndsWithAddress(address: string, chainId: int)
    requires ExplorerUrl(address, chainId) != ""
    ensures var url := ExplorerUrl(address, chainId);
      |url| > |address| && url[|url| - |address|..] == address
  {
    var url := ExplorerUrl(address, chainId);
    var prefix := ExplorerBase(chainId) + "/address/";
    assert url == prefix + address;
    assert url[|prefix|..] == address;
  }
}
