/** Provider credentials: where they come from, which mode they select, and what each adapter demands of them. */
module GatewayConfig {
  import opened JsText
  import opened PaymentStatus

  /** The process environment. */
  type Env = map<string, string>

  function Var(env: Env, name: string): Option<string> {
    if name in env then Some(env[name]) else None
  }

  predicate Production(env: Env) {
    Var(env, "NODE_ENV") == Some("production")
  }

  function ParseBooleanEnv(value: Option<string>): Option<bool> {
    if value.None? then None
    else
      var normalized := Lower(Trim(value.value));
      if normalized in ["1", "true", "yes", "y", "on"] then Some(true)
      else if normalized in ["0", "false", "no", "n", "off"] then Some(false)
      else None
  }

  /** The ?? operator. */
  function OrElse<T>(a: Option<T>, b: Option<T>): Option<T> {
    if a.Some? then a else b
  }

  datatype Merchant = Merchant(
    payfastMerchantId: Option<string>, payfastMerchantKey: Option<string>, payfastIsSandbox: Option<bool>,
    ozowSiteCode: Option<string>, ozowPrivateKey: Option<string>, ozowApiKey: Option<string>, ozowIsTest: Option<bool>,
    yocoPublicKey: Option<string>, yocoSecretKey: Option<string>, yocoTestMode: Option<bool>,
    paystackSecretKey: Option<string>, paystackTestMode: Option<bool>)

  // ---------- Ozow ----------

  datatype OzowConfig = OzowConfig(siteCode: Option<string>, privateKey: Option<string>, apiKey: Option<string>,
                                   isTest: bool, fromMerchant: bool, hasPartialMerchantConfig: bool)

  /** Merchant values win as a block as soon as any one of them, the mode included, is set. */
  function ResolveOzow(m: Merchant, env: Env): OzowConfig {
    var site, key, api := TrimToNull(m.ozowSiteCode), TrimToNull(m.ozowPrivateKey), TrimToNull(m.ozowApiKey);
    var anyCredential := site.Some? || key.Some? || api.Some?;
    var partialConfig := anyCredential && (site.None? || key.None?);
    if anyCredential || m.ozowIsTest.Some? then
      OzowConfig(site, key, api,
                 if m.ozowIsTest.Some? then m.ozowIsTest.value else !Production(env), true, partialConfig)
    else
      var mode := ParseBooleanEnv(Var(env, "OZOW_TEST_MODE"));
      OzowConfig(TrimToNull(Var(env, "OZOW_SITE_CODE")), TrimToNull(Var(env, "OZOW_PRIVATE_KEY")),
                 TrimToNull(Var(env, "OZOW_API_KEY")),
                 if mode.Some? then mode.value else !Production(env), false, partialConfig)
  }

  // ---------- Yoco ----------

  datatype YocoConfig = YocoConfig(publicKey: Option<string>, secretKey: Option<string>, testMode: bool)

  function InferKeyMode(key: Option<string>, test: string, live: string): Option<bool> {
    if key.None? then None
    else if StartsWith(key.value, test) then Some(true)
    else if StartsWith(key.value, live) then Some(false)
    else None
  }

  function DetectYocoMode(publicKey: Option<string>, secretKey: Option<string>): Result<Option<bool>> {
    var publicMode := InferKeyMode(TrimToNull(publicKey), "pk_test_", "pk_live_");
    var secretMode := InferKeyMode(TrimToNull(secretKey), "sk_test_", "sk_live_");
    if publicMode.Some? && secretMode.Some? && publicMode != secretMode
    then Err("Yoco public and secret keys must belong to the same environment")
    else Ok(OrElse(secretMode, publicMode))
  }

  function ResolveYoco(m: Merchant, env: Env): Result<YocoConfig> {
    var publicKey, secretKey := TrimToNull(m.yocoPublicKey), TrimToNull(m.yocoSecretKey);
    match DetectYocoMode(publicKey, secretKey)
    case Err(e) => Err(e)
    case Ok(detected) =>
      var mode := OrElse(m.yocoTestMode, detected);
      Ok(YocoConfig(publicKey, secretKey, if mode.Some? then mode.value else !Production(env)))
  }

  predicate YocoConsistent(c: YocoConfig) {
    match DetectYocoMode(c.publicKey, c.secretKey)
    case Err(_) => false
    case Ok(detected) => detected.None? || detected.value == c.testMode
  }

  // ---------- Paystack ----------

  datatype PaystackConfig = PaystackConfig(secretKey: Option<string>, testMode: bool)

  function DetectPaystackMode(secretKey: Option<string>): Option<bool> {
    InferKeyMode(TrimToNull(secretKey), "sk_test_", "sk_live_")
  }

  function ResolvePaystack(m: Merchant, env: Env): PaystackConfig {
    var secretKey := OrElse(TrimToNull(m.paystackSecretKey), TrimToNull(Var(env, "PAYSTACK_SECRET_KEY")));
    var mode := OrElse(OrElse(m.paystackTestMode, DetectPaystackMode(secretKey)),
                       ParseBooleanEnv(Var(env, "PAYSTACK_TEST_MODE")));
    PaystackConfig(secretKey, if mode.Some? then mode.value else !Production(env))
  }

  predicate PaystackConsistent(c: PaystackConfig) {
    var detected := DetectPaystackMode(c.secretKey);
    detected.None? || detected.value == c.testMode
  }

  // ---------- The merchant record the payment service works with ----------

  lemma TrimToNullTwice(s: Option<string>)
    ensures TrimToNull(TrimToNull(s)) == TrimToNull(s)
  {
    TrimToNullIdempotent(s);
  }

  function LoadOzow(m: Merchant, env: Env): Merchant {
    var c := ResolveOzow(m, env);
    m.(ozowSiteCode := c.siteCode, ozowPrivateKey := c.privateKey, ozowApiKey := c.apiKey, ozowIsTest := Some(c.isTest))
  }

  function LoadPaystack(m: Merchant, env: Env): Merchant {
    var c := ResolvePaystack(m, env);
    m.(paystackSecretKey := c.secretKey, paystackTestMode := Some(c.testMode))
  }

  function LoadYoco(m: Merchant, env: Env): Result<Merchant> {
    match ResolveYoco(m, env)
    case Err(e) => Err(e)
    case Ok(c) => Ok(m.(yocoPublicKey := c.publicKey, yocoSecretKey := c.secretKey, yocoTestMode := Some(c.testMode)))
  }

  /** Every credential resolved once; contradictory Yoco keys make the whole record unusable. */
  function Load(m: Merchant, env: Env): Result<Merchant> {
    LoadYoco(LoadPaystack(LoadOzow(m, env), env), env)
  }

  lemma OzowIdempotent(m: Merchant, env: Env)
    ensures LoadOzow(LoadOzow(m, env), env) == LoadOzow(m, env)
  {
    if ResolveOzow(m, env).fromMerchant {
      TrimToNullTwice(m.ozowSiteCode);
      TrimToNullTwice(m.ozowPrivateKey);
      TrimToNullTwice(m.ozowApiKey);
    } else {
      TrimToNullTwice(Var(env, "OZOW_SITE_CODE"));
      TrimToNullTwice(Var(env, "OZOW_PRIVATE_KEY"));
      TrimToNullTwice(Var(env, "OZOW_API_KEY"));
    }
  }

  lemma PaystackIdempotent(m: Merchant, env: Env)
    ensures LoadPaystack(LoadPaystack(m, env), env) == LoadPaystack(m, env)
  {
    if TrimToNull(m.paystackSecretKey).Some? {
      TrimToNullTwice(m.paystackSecretKey);
    } else {
      TrimToNullTwice(Var(env, "PAYSTACK_SECRET_KEY"));
    }
  }

  lemma YocoIdempotent(m: Merchant, env: Env)
    ensures LoadYoco(m, env).Ok? ==> LoadYoco(LoadYoco(m, env).value, env) == LoadYoco(m, env)
  {
    TrimToNullTwice(m.yocoPublicKey);
    TrimToNullTwice(m.yocoSecretKey);
  }

  /** Each provider's credentials are resolved from their own fields, so the order of loading does not matter. */
  lemma ProvidersIndependent(m: Merchant, n: Merchant, env: Env)
    ensures (m.ozowSiteCode == n.ozowSiteCode && m.ozowPrivateKey == n.ozowPrivateKey && m.ozowApiKey == n.ozowApiKey
             && m.ozowIsTest == n.ozowIsTest) ==> ResolveOzow(m, env) == ResolveOzow(n, env)
    ensures (m.paystackSecretKey == n.paystackSecretKey && m.paystackTestMode == n.paystackTestMode)
            ==> ResolvePaystack(m, env) == ResolvePaystack(n, env)
    ensures (m.yocoPublicKey == n.yocoPublicKey && m.yocoSecretKey == n.yocoSecretKey
             && m.yocoTestMode == n.yocoTestMode)
            ==> ResolveYoco(m, env) == ResolveYoco(n, env)
  {
  }

  /** Resolving resolved credentials changes nothing, so router and adapter see what the service loaded. */
  lemma LoadIdempotent(m: Merchant, env: Env)
    ensures Load(m, env).Ok? ==> Load(Load(m, env).value, env) == Load(m, env)
  {
    var a := LoadOzow(m, env);
    var b := LoadPaystack(a, env);
    OzowIdempotent(m, env);
    PaystackIdempotent(a, env);
    YocoIdempotent(b, env);
    if LoadYoco(b, env).Ok? {
      var c := LoadYoco(b, env).value;
      hide ResolveOzow, ResolvePaystack, ResolveYoco;
      ProvidersIndependent(a, c, env);
      ProvidersIndependent(b, LoadOzow(c, env), env);
    }
  }

  // ---------- Where each value comes from ----------

  /** The value is the text of an environment variable, trimmed; a blank or missing one counts as none. */
  predicate FromEnv(value: Option<string>, env: Env, name: string) {
    value == if name in env && Trim(env[name]) != "" then Some(Trim(env[name])) else None
  }

  predicate FromRecord(value: Option<string>, stored: Option<string>) {
    value == if stored.Some? && Trim(stored.value) != "" then Some(Trim(stored.value)) else None
  }

  /** Outside production the test mode is the default. */
  predicate DefaultMode(env: Env) {
    !("NODE_ENV" in env && env["NODE_ENV"] == "production")
  }

  /** An environment variable switches the mode on or off by one of five words each, in any case. */
  lemma SwitchWords(text: string)
    ensures ParseBooleanEnv(Some(text)) ==
      if Lower(Trim(text)) in {"1", "true", "yes", "y", "on"} then Some(true)
      else if Lower(Trim(text)) in {"0", "false", "no", "n", "off"} then Some(false)
      else None
  {
    hide Lower, Trim;
  }

  /** The mode of a key is in its prefix: what comes after that does not matter. */
  lemma KeyModes(rest: string)
    requires Trimmed("k" + rest)
    ensures DetectPaystackMode(Some("sk_test_" + rest)) == Some(true)
    ensures DetectPaystackMode(Some("sk_live_" + rest)) == Some(false)
    ensures DetectYocoMode(None, Some("sk_test_" + rest)) == Ok(Some(true))
    ensures DetectYocoMode(None, Some("sk_live_" + rest)) == Ok(Some(false))
    ensures DetectYocoMode(Some("pk_test_" + rest), None) == Ok(Some(true))
    ensures DetectYocoMode(Some("pk_live_" + rest), None) == Ok(Some(false))
  {
    PrefixedKey("sk_test_", rest);
    PrefixedKey("sk_live_", rest);
    PrefixedKey("pk_test_", rest);
    PrefixedKey("pk_live_", rest);
    hide TrimToNull;
    assert "sk_live_"[3] == 'l' && "sk_test_"[3] == 't' && "pk_live_"[3] == 'l' && "pk_test_"[3] == 't';
    assert ("sk_live_" + rest)[3] == 'l' && ("pk_live_" + rest)[3] == 'l';
  }

  /** A key with neither prefix has no mode of its own. */
  lemma OtherKeysHaveNoMode(key: string)
    requires !("sk_test_" <= key) && !("sk_live_" <= key) && !("pk_test_" <= key) && !("pk_live_" <= key)
    requires Trimmed(key)
    ensures DetectPaystackMode(Some(key)) == None && DetectYocoMode(Some(key), Some(key)) == Ok(None)
  {
    TrimKeepsTrimmed(key);
    hide Trim;
  }

  lemma PrefixedKey(prefix: string, rest: string)
    requires Trimmed("k" + rest) && |prefix| == 8 && !IsSpace(prefix[0]) && !IsSpace(prefix[7])
    ensures TrimToNull(Some(prefix + rest)) == Some(prefix + rest) && StartsWith(prefix + rest, prefix)
  {
    var key := prefix + rest;
    assert key[|key| - 1] == if rest == "" then prefix[7] else ("k" + rest)[|rest|];
    TrimKeepsTrimmed(key);
  }

  /**
   * Ozow: as soon as the merchant's record has a credential or a mode, all values are the record's and the environment
   * has none to add; otherwise all come from the environment. Without a mode, production decides.
   */
  lemma OzowSource(m: Merchant, env: Env)
    ensures var c := ResolveOzow(m, env);
      var own := !FromRecord(None, m.ozowSiteCode) || !FromRecord(None, m.ozowPrivateKey)
                 || !FromRecord(None, m.ozowApiKey) || m.ozowIsTest.Some?;
      && c.fromMerchant == own
      && (c.hasPartialMerchantConfig <==>
            own && !(c.siteCode.None? && c.privateKey.None? && c.apiKey.None?)
            && (c.siteCode.None? || c.privateKey.None?))
      && (own ==> FromRecord(c.siteCode, m.ozowSiteCode) && FromRecord(c.privateKey, m.ozowPrivateKey)
                  && FromRecord(c.apiKey, m.ozowApiKey)
                  && c.isTest == if m.ozowIsTest.Some? then m.ozowIsTest.value else DefaultMode(env))
      && (!own ==> FromEnv(c.siteCode, env, "OZOW_SITE_CODE") && FromEnv(c.privateKey, env, "OZOW_PRIVATE_KEY")
                   && FromEnv(c.apiKey, env, "OZOW_API_KEY")
                   && c.isTest == if "OZOW_TEST_MODE" in env && ParseBooleanEnv(Some(env["OZOW_TEST_MODE"])).Some?
                                  then ParseBooleanEnv(Some(env["OZOW_TEST_MODE"])).value else DefaultMode(env))
  {
    hide Trim, ParseBooleanEnv;
    assert ParseBooleanEnv(None) == None by { NoSwitch(); }
  }

  lemma NoSwitch()
    ensures ParseBooleanEnv(None) == None
  {
  }

  /** Yoco: the keys are the merchant's alone; the mode is the record's, else the keys', else production decides. */
  lemma YocoSource(m: Merchant, env: Env)
    ensures ResolveYoco(m, env).Ok? ==>
      var c := ResolveYoco(m, env).value;
      var keys := DetectYocoMode(m.yocoPublicKey, m.yocoSecretKey);
      && FromRecord(c.publicKey, m.yocoPublicKey) && FromRecord(c.secretKey, m.yocoSecretKey) && keys.Ok?
      && c.testMode == (if m.yocoTestMode.Some? then m.yocoTestMode.value
                        else if keys.value.Some? then keys.value.value else DefaultMode(env))
  {
    TrimToNullTwice(m.yocoPublicKey);
    TrimToNullTwice(m.yocoSecretKey);
    hide Trim, InferKeyMode;
  }

  /** Paystack: the environment's key stands in for a missing one; a key's own mode outranks the environment's. */
  lemma PaystackSource(m: Merchant, env: Env)
    ensures var c := ResolvePaystack(m, env);
      && (if FromRecord(None, m.paystackSecretKey) then FromEnv(c.secretKey, env, "PAYSTACK_SECRET_KEY")
          else FromRecord(c.secretKey, m.paystackSecretKey))
      && c.testMode == (if m.paystackTestMode.Some? then m.paystackTestMode.value
                        else if DetectPaystackMode(c.secretKey).Some? then DetectPaystackMode(c.secretKey).value
                        else if "PAYSTACK_TEST_MODE" in env && ParseBooleanEnv(Some(env["PAYSTACK_TEST_MODE"])).Some?
                        then ParseBooleanEnv(Some(env["PAYSTACK_TEST_MODE"])).value else DefaultMode(env))
  {
    hide Trim, ParseBooleanEnv, DetectPaystackMode;
    NoSwitch();
  }

  /** The record the service works with holds the resolved values of all three providers, and the rest as stored. */
  lemma LoadedIsResolved(m: Merchant, env: Env)
    ensures Load(m, env).Ok? <==> ResolveYoco(m, env).Ok?
    ensures Load(m, env).Ok? ==>
      var loaded := Load(m, env).value;
      var o, y, p := ResolveOzow(m, env), ResolveYoco(m, env).value, ResolvePaystack(m, env);
      && loaded.ozowSiteCode == o.siteCode && loaded.ozowPrivateKey == o.privateKey && loaded.ozowApiKey == o.apiKey
      && loaded.ozowIsTest == Some(o.isTest)
      && loaded.yocoPublicKey == y.publicKey && loaded.yocoSecretKey == y.secretKey
      && loaded.yocoTestMode == Some(y.testMode)
      && loaded.paystackSecretKey == p.secretKey && loaded.paystackTestMode == Some(p.testMode)
      && loaded.payfastMerchantId == m.payfastMerchantId && loaded.payfastMerchantKey == m.payfastMerchantKey
      && loaded.payfastIsSandbox == m.payfastIsSandbox
  {
    var a := LoadOzow(m, env);
    var b := LoadPaystack(a, env);
    ProvidersIndependent(m, a, env);
    ProvidersIndependent(m, b, env);
    hide ResolveOzow, ResolvePaystack, ResolveYoco;
  }

  // ---------- What the adapters check before they call the provider ----------

  datatype Charge = Charge(reference: string, amountCents: int, currency: string, customerEmail: Option<string>)

  predicate OzowAccepts(m: Merchant, env: Env, c: Charge) {
    var config := ResolveOzow(m, env);
    && TrimToNull(config.siteCode).Some?
    && Upper(Trim(c.currency)) == "ZAR"
    && Trim(c.reference) != ""
    && TrimToNull(config.privateKey).Some?
  }

  predicate YocoAccepts(m: Merchant, env: Env, c: Charge) {
    var config := ResolveYoco(m, env);
    && config.Ok? && YocoConsistent(config.value)
    && config.value.publicKey.Some? && config.value.secretKey.Some?
    && Upper(Trim(c.currency)) == "ZAR"
    && c.amountCents >= 200
  }

  predicate PaystackAccepts(m: Merchant, env: Env, c: Charge) {
    var config := ResolvePaystack(m, env);
    && PaystackConsistent(config)
    && config.secretKey.Some?
    && TrimToNull(c.customerEmail).Some?
  }

  predicate AdapterAccepts(g: Gateway, m: Merchant, env: Env, c: Charge)
    requires g.PAYSTACK? || g.YOCO? || g.OZOW?
  {
    match g
    case PAYSTACK => PaystackAccepts(m, env, c)
    case YOCO => YocoAccepts(m, env, c)
    case OZOW => OzowAccepts(m, env, c)
  }
}
