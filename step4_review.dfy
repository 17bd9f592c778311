/** The review step (frontend/src/components/TokenWizard/Step4Review.tsx):
    whether the configuration is complete, and the display names of claim
    topics (frontend/src/utils/compliancePresets.ts numbers them). */
module ReviewStep {
  import opened Common
  import opened TokenTypes
  import TokenWizard

  /** `isValid`: name and symbol non-empty, decimals defined (0 included) and
      at least one claim topic. */
  function IsValid(c: TokenConfig): (valid: bool)
    ensures valid ==> TokenWizard.FieldsComplete(c)
    ensures valid <==> TokenWizard.FieldsComplete(c) && c.decimals.Some?
  {
    && TokenWizard.HasText(c.name)
    && TokenWizard.HasText(c.symbol)
    && c.decimals.Some?
    && TokenWizard.HasTopics(c.claimTopics)
  }

  const TopicNamePrefix := "Topic "

  /** `getClaimTopicName`: the preset's name, or "Topic " and the number. */
  function ClaimTopicName(topic: int): (name: string)
    ensures name != ""
  {
    if topic == KYC then "KYC"
    else if topic == AML then "AML"
    else if topic == ACCREDITATION then "Accreditation"
    else if topic == INVESTOR_TYPE then "Investor Type"
    else TopicNamePrefix + IntToString(topic)
  }

  // ---------------------------------------------------------------------
  // Properties

  /** A valid configuration passes the wizard's own field check before deploying. */
  lemma ValidPassesWizardCheck(c: TokenConfig)
    requires IsValid(c)
    ensures TokenWizard.FieldsComplete(c)
  {
  }

  /** The wizard's check is weaker: it does not look at decimals. */
  lemma WizardCheckIgnoresDecimals()
    ensures var c := EmptyConfig.(name := Some("T"), symbol := Some("T"), claimTopics := Some([KYC]));
      TokenWizard.FieldsComplete(c) && !IsValid(c)
  {
  }

  /** Zero decimals count as defined. */
  lemma ZeroDecimalsAreValid(c: TokenConfig)
    requires TokenWizard.HasText(c.name) && TokenWizard.HasText(c.symbol) && TokenWizard.HasTopics(c.claimTopics)
    ensures IsValid(c.(decimals := Some(0)))
    ensures !IsValid(c.(decimals := None))
  {
  }

  /** The four preset topics have their own names; any other number is shown as "Topic n". */
  lemma ClaimTopicNames(topic: int)
    ensures ClaimTopicName(KYC) == "KYC" && ClaimTopicName(AML) == "AML"
    ensures ClaimTopicName(ACCREDITATION) == "Accreditation" && ClaimTopicName(INVESTOR_TYPE) == "Investor Type"
    ensures !(1 <= topic <= 4) ==> ClaimTopicName(topic) == TopicNamePrefix + IntToString(topic)
  {
  }

  /** A number's fallback name never equals a preset name. */
  lemma FallbackNamesAreDistinct(topic: int)
    requires !(1 <= topic <= 4)
    ensures ClaimTopicName(topic) !in {"KYC", "AML", "Accreditation", "Investor Type"}
    ensures StartsWith(ClaimTopicName(topic), TopicNamePrefix)
  {
    var name := ClaimTopicName(topic);
    assert name[..|TopicNamePrefix|] == TopicNamePrefix;
    assert name[0] == 'T' && name[1] == 'o';
  }
}
