/** The wizard shell (frontend/src/components/TokenWizard/TokenWizard.tsx):
    which step may be left forwards, what Next and Back do to the store, and
    the button guards that keep the current step within the six steps. */
module TokenWizard {
  import opened Common
  import opened TokenTypes
  import opened TokenSlice
  import WalletSlice
  import TokenSuite

  /** The six steps, 0 (contract setup) to 5 (deploy). */
  const LastStep := 5
  const ReviewStep := 4

  /** A truthy optional string: present and non-empty. */
  predicate HasText(s: Option<string>)
  {
    s.Some? && s.value != ""
  }

  /** `claimTopics?.length` is truthy: present and non-empty. */
  predicate HasTopics(t: Option<seq<int>>)
  {
    t.Some? && |t.value| > 0
  }

  /** `canGoNext`: whether the current step's own fields allow moving on. */
  function CanGoNext(s: TokenState): (ok: bool)
    ensures s.currentStep == 0 ==> (ok <==> s.contractAddresses.Some?)
    ensures s.currentStep == 1 ==> (ok <==> HasText(s.config.name) && HasText(s.config.symbol) && s.config.decimals.Some?)
    ensures s.currentStep == 2 || s.currentStep == 4 ==> ok
    ensures s.currentStep == 3 ==> (ok <==> HasTopics(s.config.claimTopics))
    ensures !(0 <= s.currentStep <= 4) ==> !ok
  {
    match s.currentStep
    case 0 => s.contractAddresses.Some?
    case 1 => HasText(s.config.name) && HasText(s.config.symbol) && s.config.decimals.Some?
    case 2 => true
    case 3 => HasTopics(s.config.claimTopics)
    case 4 => true
    case _ => false
  }

  /** The field check `handleNext` makes before deploying. */
  predicate FieldsComplete(c: TokenConfig)
  {
    HasText(c.name) && HasText(c.symbol) && HasTopics(c.claimTopics)
  }

  /** The wallet check `handleNext` makes before deploying. */
  predicate WalletReady(w: WalletSlice.WalletState)
  {
    w.isConnected && w.signer.Some?
  }

  /** Whether Next at step 4 goes ahead with the deployment. */
  predicate DeployGo(s: TokenState, w: WalletSlice.WalletState)
  {
    s.currentStep == ReviewStep && WalletReady(w) && s.contractAddresses.Some? && FieldsComplete(s.config)
  }

  /** What the awaited `deployTokenSuite` resolves to or rejects with. */
  function DeployOutcome(s: TokenState, w: WalletSlice.WalletState, env: TokenSuite.SuiteEnv): Result<DeployedTokenSuite, string>
    requires DeployGo(s, w)
  {
    var run := TokenSuite.SuiteSpec(s.config, w.signer.value, s.contractAddresses.value, env);
    if run.outcome.Ok? then Ok(run.outcome.value) else Err(TokenSuite.MapSuiteError(run.outcome.error))
  }

  /** The store after `handleNext`. */
  function AfterNext(s: TokenState, w: WalletSlice.WalletState, env: TokenSuite.SuiteEnv): TokenState
  {
    if s.currentStep == 0 && s.contractAddresses.None? then s
    else if s.currentStep == ReviewStep then
      if !DeployGo(s, w) then s
      else match DeployOutcome(s, w, env)
        case Ok(suite) => s.(currentStep := LastStep, deployedSuite := Some(suite), isDeploying := false)
        case Err(message) => s.(currentStep := LastStep, deploymentError := Some(message), isDeploying := false)
    else s.(currentStep := s.currentStep + 1)
  }

  /** The gateway requests `handleNext` makes: none unless it deploys. */
  function NextCalls(s: TokenState, w: WalletSlice.WalletState, env: TokenSuite.SuiteEnv): seq<TokenSuite.GatewayCall>
  {
    if DeployGo(s, w) then TokenSuite.SuiteSpec(s.config, w.signer.value, s.contractAddresses.value, env).calls else []
  }

  /** The store after `handleBack`. */
  function AfterBack(s: TokenState): TokenState
  {
    s.(currentStep := s.currentStep - 1)
  }

  /** The buttons are shown before step 5 while no suite exists; Next is
      enabled when `canGoNext` holds and nothing is deploying. */
  predicate NextEnabled(s: TokenState)
  {
    s.currentStep < LastStep && s.deployedSuite.None? && CanGoNext(s) && !s.isDeploying
  }

  /** Back is enabled away from step 0 while nothing is deploying. */
  predicate BackEnabled(s: TokenState)
  {
    s.currentStep < LastStep && s.deployedSuite.None? && s.currentStep != 0 && !s.isDeploying
  }

  /** A press of one of the two buttons; Next carries the gateway's answers for a deployment it may start. */
  datatype Click = Next(env: TokenSuite.SuiteEnv) | Back

  /** The store after a sequence of presses; a press on a disabled button does nothing. */
  function AfterClicks(s: TokenState, w: WalletSlice.WalletState, clicks: seq<Click>): TokenState
    decreases |clicks|
  {
    if clicks == [] then s
    else
      var t := match clicks[0]
        case Next(env) => if NextEnabled(s) then AfterNext(s, w, env) else s
        case Back => if BackEnabled(s) then AfterBack(s) else s;
      AfterClicks(t, w, clicks[1..])
  }

  class Wizard {
    const store: TokenStore
    const wallet: WalletSlice.WalletStore

    constructor (store: TokenStore, wallet: WalletSlice.WalletStore)
      ensures this.store == store && this.wallet == wallet
    {
      this.store := store;
      this.wallet := wallet;
    }

    /** `handleNext`; `calls` are the requests the deployment sends. */
    method HandleNext(env: TokenSuite.SuiteEnv) returns (calls: seq<TokenSuite.GatewayCall>)
      modifies store
      ensures store.State() == AfterNext(old(store.State()), wallet.State(), env)
      ensures calls == NextCalls(old(store.State()), wallet.State(), env)
    {
      calls := [];
      if store.currentStep == 0 && store.contractAddresses.None? {
        return;
      }
      if store.currentStep == ReviewStep {
        if !wallet.isConnected || wallet.signer.None? || store.contractAddresses.None? {
          return;
        }
        if !HasText(store.config.name) || !HasText(store.config.symbol) || !HasTopics(store.config.claimTopics) {
          return;
        }
        var config, signer, addresses := store.config, wallet.signer.value, store.contractAddresses.value;
        store.SetCurrentStep(LastStep);
        store.SetDeploying(true);
        var result;
        result, calls := TokenSuite.DeployTokenSuite(config, signer, addresses, env);
        match result {
          case Ok(suite) => store.SetDeployedSuite(suite);
          case Err(message) => store.SetDeploymentError(Some(message));
        }
      } else {
        store.SetCurrentStep(store.currentStep + 1);
      }
    }

    /** `handleBack`: one step back, whatever the step. */
    method HandleBack()
      modifies store
      ensures store.State() == AfterBack(old(store.State()))
    {
      store.SetCurrentStep(store.currentStep - 1);
    }
  }

  // ---------------------------------------------------------------------
  // Properties

  /** Next at step 0 without contract addresses leaves the store as it is. */
  lemma NextNeedsContracts(s: TokenState, w: WalletSlice.WalletState, env: TokenSuite.SuiteEnv)
    requires s.currentStep == 0 && s.contractAddresses.None?
    ensures AfterNext(s, w, env) == s && NextCalls(s, w, env) == []
  {
  }

  /** Away from step 4 (and at step 0 once contracts exist), Next advances one step and changes nothing else. */
  lemma NextAdvances(s: TokenState, w: WalletSlice.WalletState, env: TokenSuite.SuiteEnv)
    requires s.currentStep != ReviewStep && (s.currentStep == 0 ==> s.contractAddresses.Some?)
    ensures AfterNext(s, w, env) == s.(currentStep := s.currentStep + 1) && NextCalls(s, w, env) == []
  {
  }

  /** At step 4, a missing wallet, signer or contracts, or an incomplete
      configuration, keeps the step and sends nothing. */
  lemma ReviewGateHolds(s: TokenState, w: WalletSlice.WalletState, env: TokenSuite.SuiteEnv)
    requires s.currentStep == ReviewStep
    requires !w.isConnected || w.signer.None? || s.contractAddresses.None? || !FieldsComplete(s.config)
    ensures AfterNext(s, w, env) == s && NextCalls(s, w, env) == []
  {
  }

  /** A deployment from step 4 ends at step 5 with isDeploying false and
      records either the suite or the error message, touching nothing else. */
  lemma ReviewDeploys(s: TokenState, w: WalletSlice.WalletState, env: TokenSuite.SuiteEnv)
    requires DeployGo(s, w)
    ensures var t := AfterNext(s, w, env);
      && t.currentStep == LastStep && !t.isDeploying
      && (DeployOutcome(s, w, env).Ok? ==> t == s.(currentStep := LastStep, isDeploying := false,
                                                    deployedSuite := Some(DeployOutcome(s, w, env).value)))
      && (DeployOutcome(s, w, env).Err? ==> t == s.(currentStep := LastStep, isDeploying := false,
                                                     deploymentError := Some(DeployOutcome(s, w, env).error))
                                            && DeployOutcome(s, w, env).error != "")
  {
  }

  /** One enabled press keeps the step within 0..5. */
  lemma ClickStaysInRange(s: TokenState, w: WalletSlice.WalletState, c: Click)
    requires 0 <= s.currentStep <= LastStep
    ensures c.Next? && NextEnabled(s) ==> 0 <= AfterNext(s, w, c.env).currentStep <= LastStep
    ensures c.Back? && BackEnabled(s) ==> 0 <= AfterBack(s).currentStep <= LastStep
  {
  }

  /** With the guards in place, any sequence of presses keeps the step within 0..5. */
  lemma {:induction false} ClicksStayInRange(s: TokenState, w: WalletSlice.WalletState, clicks: seq<Click>)
    requires 0 <= s.currentStep <= LastStep
    ensures 0 <= AfterClicks(s, w, clicks).currentStep <= LastStep
    decreases |clicks|
  {
    if clicks != [] {
      ClickStaysInRange(s, w, clicks[0]);
      var t := match clicks[0]
        case Next(env) => if NextEnabled(s) then AfterNext(s, w, env) else s
        case Back => if BackEnabled(s) then AfterBack(s) else s;
      ClicksStayInRange(t, w, clicks[1..]);
    }
  }

  /** Once a suite exists, or at step 5, the buttons do nothing more. */
  lemma {:induction false} FinishedWizardIsFrozen(s: TokenState, w: WalletSlice.WalletState, clicks: seq<Click>)
    requires s.deployedSuite.Some? || s.currentStep >= LastStep
    ensures AfterClicks(s, w, clicks) == s
    decreases |clicks|
  {
    if clicks != [] {
      FinishedWizardIsFrozen(s, w, clicks[1..]);
    }
  }
}
