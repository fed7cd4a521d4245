/**
 * `config/StripeConfig.java`: the gateway mode and secret key, bound from
 * the `stripe.*` properties. At start-up the key is installed in the SDK
 * and then checked against the mode.
 */
module Config {
  import opened Common

  const TEST_MODE: string := "test"
  const LIVE_MODE: string := "live"
  const TEST_KEY_PREFIX: string := "sk_test_"
  const LIVE_KEY_PREFIX: string := "sk_live_"

  /**
   * The check `init` makes: in test mode the key must start with
   * "sk_test_", in live mode with "sk_live_"; a null key in either mode
   * fails on the prefix test itself; any other mode, null included, accepts
   * any key.
   */
  function ValidateKey(mode: Option<string>, secretKey: Option<string>): (r: Result<()>)
    ensures r.Ok? <==>
      || (mode != Some(TEST_MODE) && mode != Some(LIVE_MODE))
      || (mode == Some(TEST_MODE) && secretKey.Some? && StartsWith(secretKey.value, TEST_KEY_PREFIX))
      || (mode == Some(LIVE_MODE) && secretKey.Some? && StartsWith(secretKey.value, LIVE_KEY_PREFIX))
    ensures r == Err(NullSecretKey) <==> (mode == Some(TEST_MODE) || mode == Some(LIVE_MODE)) && secretKey.None?
    ensures r.Err? ==> r.error == NullSecretKey || r.error == SecretKeyMismatch
  {
    if mode == Some(TEST_MODE) then
      if secretKey.None? then Err(NullSecretKey)
      else if !StartsWith(secretKey.value, TEST_KEY_PREFIX) then Err(SecretKeyMismatch)
      else Ok(())
    else if mode == Some(LIVE_MODE) then
      if secretKey.None? then Err(NullSecretKey)
      else if !StartsWith(secretKey.value, LIVE_KEY_PREFIX) then Err(SecretKeyMismatch)
      else Ok(())
    else Ok(())
  }

  /** No key passes both checks: a test key is refused in live mode and a live key in test mode. */
  lemma ModesExclusive(key: string)
    ensures ValidateKey(Some(TEST_MODE), Some(key)).Ok? ==> ValidateKey(Some(LIVE_MODE), Some(key)) == Err(SecretKeyMismatch)
    ensures ValidateKey(Some(LIVE_MODE), Some(key)).Ok? ==> ValidateKey(Some(TEST_MODE), Some(key)) == Err(SecretKeyMismatch)
  {
    if StartsWith(key, TEST_KEY_PREFIX) {
      assert key[3] == TEST_KEY_PREFIX[3];
    }
    if StartsWith(key, LIVE_KEY_PREFIX) {
      assert key[3] == LIVE_KEY_PREFIX[3];
    }
  }

  /** The SDK's global settings. */
  class StripeSdk {
    var apiKey: Option<string>

    constructor ()
      ensures apiKey.None?
    {
      apiKey := None;
    }
  }

  class StripeConfig {
    var mode: Option<string>
    var secretKey: Option<string>

    constructor (mode: Option<string>, secretKey: Option<string>)
      ensures this.mode == mode && this.secretKey == secretKey
    {
      this.mode := mode;
      this.secretKey := secretKey;
    }

    /**
     * `@PostConstruct init`: the key is installed in the SDK first, so it
     * stays installed when the check then refuses it.
     */
    method Init(sdk: StripeSdk) returns (r: Result<()>)
      modifies sdk
      ensures sdk.apiKey == secretKey
      ensures r == ValidateKey(mode, secretKey)
    {
      sdk.apiKey := secretKey;
      r := ValidateKey(mode, secretKey);
    }

    /** `isTestMode`: true exactly when the mode is "test". */
    predicate IsTestMode(): (r: bool)
      reads this
      ensures r ==> (ValidateKey(mode, secretKey).Ok? <==> secretKey.Some? && StartsWith(secretKey.value, TEST_KEY_PREFIX))
    {
      mode == Some(TEST_MODE)
    }
  }

  /** A configuration that starts in test mode holds a test key; one in live mode, a live key. */
  lemma StartedConfigurationKey(mode: Option<string>, key: Option<string>)
    requires ValidateKey(mode, key).Ok?
    ensures mode == Some(TEST_MODE) ==> key.Some? && !StartsWith(key.value, LIVE_KEY_PREFIX)
    ensures mode == Some(LIVE_MODE) ==> key.Some? && !StartsWith(key.value, TEST_KEY_PREFIX)
  {
    if key.Some? {
      ModesExclusive(key.value);
    }
  }

  /** A configuration reporting test mode that passed its start-up check holds a test key, never a live one. */
  lemma TestModeHoldsTestKey(c: StripeConfig)
    requires c.IsTestMode() && ValidateKey(c.mode, c.secretKey).Ok?
    ensures c.secretKey.Some? && StartsWith(c.secretKey.value, TEST_KEY_PREFIX)
    ensures !StartsWith(c.secretKey.value, LIVE_KEY_PREFIX)
  {
    StartedConfigurationKey(c.mode, c.secretKey);
  }
}
