/** The account list of the Hardhat configuration (hardhat.config.ts): the
    `PRIVATE_KEY` environment variable, normalised to carry a `0x` prefix,
    is the one account when it has the 66 characters of such a key. */
module HardhatConfig {
  import opened Common

  const KeyPrefix := "0x"
  const KeyLength := 66

  /** The key with `0x` prepended unless it has it already. */
  function Normalised(privateKey: string): (key: string)
    ensures StartsWith(key, KeyPrefix)
    ensures StartsWith(privateKey, KeyPrefix) ==> key == privateKey
    ensures !StartsWith(privateKey, KeyPrefix) ==> key == KeyPrefix + privateKey
  {
    if StartsWith(privateKey, KeyPrefix) then privateKey
    else
      assert (KeyPrefix + privateKey)[..|KeyPrefix|] == KeyPrefix;
      KeyPrefix + privateKey
  }

  /** `getAccounts`; `privateKey` is `process.env.PRIVATE_KEY` (None when unset). */
  function GetAccounts(privateKey: Option<string>): (accounts: seq<string>)
    ensures |accounts| <= 1
    ensures forall a :: a in accounts ==> StartsWith(a, KeyPrefix) && |a| == KeyLength
    ensures privateKey.None? || privateKey.value == "" ==> accounts == []
    ensures privateKey.Some? && privateKey.value != "" ==>
      (accounts != [] <==> |Normalised(privateKey.value)| == KeyLength)
    ensures accounts != [] ==> accounts == [Normalised(privateKey.value)]
  {
    if privateKey.None? || privateKey.value == "" then []
    else
      var key := Normalised(privateKey.value);
      if |key| != KeyLength then [] else [key]
  }

  /** Normalising twice is normalising once. */
  lemma NormalisedIdempotent(privateKey: string)
    ensures Normalised(Normalised(privateKey)) == Normalised(privateKey)
  {
  }

  /** A bare 64-character key and the same key with its prefix give the same single account. */
  lemma PrefixIsOptional(hex: string)
    requires |hex| == 64 && !StartsWith(hex, KeyPrefix)
    ensures GetAccounts(Some(hex)) == [KeyPrefix + hex]
    ensures GetAccounts(Some(KeyPrefix + hex)) == [KeyPrefix + hex]
  {
    assert (KeyPrefix + hex)[..|KeyPrefix|] == KeyPrefix;
  }

  /** A key of any other length yields no account. */
  lemma WrongLengthYieldsNone(privateKey: string)
    requires privateKey != "" && |privateKey| != 64 && |privateKey| != 66
    ensures GetAccounts(Some(privateKey)) == []
  {
  }
}
