/**
 * `NativeAuthSigner` (packages/http/src/auth/native.auth.signer.ts): a
 * native-auth access-token cache in front of a lazily resolved user signer.
 *
 * Time is an integer number of milliseconds. `getToken` reads the clock
 * twice, once for the freshness test (`now`) and once, after the
 * asynchronous steps, for the new token's expiry (`later`). The SDK, the
 * key-file reader and the native-auth client are the `Collaborators` of one
 * call; what they are asked is recorded as a sequence of `Call`s.
 */
module NativeAuth {
  import opened Wrappers
  import opened Encoding

  /** `new Date().addMinutes(1)`: a cached token must outlive the next minute. */
  const ExpiryLookaheadMs: int := 60_000
  const MillisPerSecond: int := 1000

  const MissingKeySourceError: Error :=
    Error("Missing PrivateKey and SignerPrivateKeyPath in NativeAuthSigner.")

  /** The merged `NativeAuthSignerConfig` fields the signer itself reads. */
  datatype SignerConfig = SignerConfig(
    signerPrivateKeyPath: Option<string>,
    privateKey: Option<string>,
    expirySeconds: int)

  /** JavaScript truthiness of an optional string: present and not empty. */
  predicate IsSet(s: Option<string>) { s.Some? && s.value != "" }

  /** `AccessTokenInfo`: the bearer token and the instant it expires. */
  datatype AccessTokenInfo = AccessTokenInfo(token: string, expiryDate: int)

  /** An SDK `UserSigner`, known to this model only by identity. */
  datatype UserSigner = UserSigner(handle: nat)

  /** What the surroundings answer during one call of `getToken`. */
  datatype Collaborators = Collaborators(
    fromPem: string -> Result<UserSigner, Error>,              // UserSigner.fromPem
    readFile: string -> Result<string, Error>,                 // FileUtils.readFile, then toString()
    getAddress: UserSigner -> string,                          // getAddress().bech32()
    sign: (UserSigner, seq<byte>) -> Result<seq<byte>, Error>, // sign(serializeForSigning())
    initialize: Result<string, Error>,                         // nativeAuthClient.initialize()
    issueToken: (string, string, string) -> string)            // nativeAuthClient.getToken(...)

  /** A request made to a collaborator. */
  datatype Call =
    | ReadFile(path: string)
    | FromPem(pem: string)
    | Initialize
    | Sign(message: seq<byte>)
    | IssueToken(address: string, challenge: string, signature: string)

  /** The two mutable fields of the signer. */
  datatype SignerState = SignerState(userSigner: Option<UserSigner>, accessTokenInfo: Option<AccessTokenInfo>)

  /** A token is cached only after a signer was resolved. */
  predicate Consistent(st: SignerState) { st.accessTokenInfo.Some? ==> st.userSigner.Some? }

  /** The freshness test of `getToken`: the cached token is still valid one minute from `now`. */
  predicate IsReusable(info: Option<AccessTokenInfo>, now: int)
  {
    info.Some? && now + ExpiryLookaheadMs <= info.value.expiryDate
  }

  /** `getSignableMessage`: the UTF-8 bytes of the address immediately followed by the challenge. */
  function SignableMessage(address: string, challenge: string): (m: seq<byte>)
    ensures m == Utf8Encode(address) + Utf8Encode(challenge)
    ensures Utf8Decode(m) == Some(address + challenge)
  {
    Utf8Concat(address, challenge);
    Utf8RoundTrip(address + challenge);
    Utf8Encode(address + challenge)
  }

  /** Equal signable messages come from equal texts. */
  lemma SignableMessageDeterminesText(a1: string, c1: string, a2: string, c2: string)
    requires SignableMessage(a1, c1) == SignableMessage(a2, c2)
    ensures a1 + c1 == a2 + c2
  {
    assert Some(a1 + c1) == Utf8Decode(SignableMessage(a1, c1));
  }

  // ------------------------------------------------------- getUserSigner

  datatype SignerResolution = SignerResolution(
    result: Result<UserSigner, Error>,
    userSigner: Option<UserSigner>,
    calls: seq<Call>)

  /** A signer built by `fromPem` is remembered only when building it did not throw. */
  function Built(built: Result<UserSigner, Error>, calls: seq<Call>): (r: SignerResolution)
    ensures r.result == built && r.calls == calls
    ensures r.userSigner == if built.Success? then Some(built.value) else None
  {
    SignerResolution(built, if built.Success? then Some(built.value) else None, calls)
  }

  /** `getUserSigner`, from the memoized signer `userSigner`. */
  function ResolveUserSigner(config: SignerConfig, sdk: Collaborators, userSigner: Option<UserSigner>): (r: SignerResolution)
    // a memoized signer is returned as it is, with no collaborator call
    ensures userSigner.Some? ==> r == SignerResolution(Success(userSigner.value), userSigner, [])
    // an inline key wins: it goes to fromPem and no file is read
    ensures userSigner.None? && IsSet(config.privateKey) ==>
      r.calls == [FromPem(config.privateKey.value)] && r.result == sdk.fromPem(config.privateKey.value)
    // the key file is read only when there is no inline key, and its text goes to fromPem
    ensures forall c :: c in r.calls && c.ReadFile? ==>
      userSigner.None? && !IsSet(config.privateKey) && IsSet(config.signerPrivateKeyPath) &&
      c == ReadFile(config.signerPrivateKeyPath.value) && r.calls[0] == c
    ensures userSigner.None? && !IsSet(config.privateKey) && IsSet(config.signerPrivateKeyPath) ==>
      var file := sdk.readFile(config.signerPrivateKeyPath.value);
      |r.calls| >= 1 && r.calls[0] == ReadFile(config.signerPrivateKeyPath.value) &&
      (file.Failure? ==> r.result == Failure(file.error) && |r.calls| == 1) &&
      (file.Success? ==> r.result == sdk.fromPem(file.value) && r.calls[1..] == [FromPem(file.value)])
    // no key source at all: the configuration error, and nothing is asked of anybody
    ensures userSigner.None? && !IsSet(config.privateKey) && !IsSet(config.signerPrivateKeyPath) ==>
      r == SignerResolution(Failure(MissingKeySourceError), None, [])
    // the memo afterwards is the signer returned, or is left as it was
    ensures r.result.Success? ==> r.userSigner == Some(r.result.value)
    ensures r.result.Failure? ==> r.userSigner == userSigner
    ensures forall c :: c in r.calls ==> c.ReadFile? || c.FromPem?
  {
    if userSigner.Some? then SignerResolution(Success(userSigner.value), userSigner, [])
    else if IsSet(config.privateKey) then
      var pem := config.privateKey.value;
      Built(sdk.fromPem(pem), [FromPem(pem)])
    else if IsSet(config.signerPrivateKeyPath) then
      var path := config.signerPrivateKeyPath.value;
      match sdk.readFile(path)
      case Failure(e) => SignerResolution(Failure(e), None, [ReadFile(path)])
      case Success(pemKey) => Built(sdk.fromPem(pemKey), [ReadFile(path), FromPem(pemKey)])
    else SignerResolution(Failure(MissingKeySourceError), None, [])
  }

  // ------------------------------------------------------------ getToken

  /** The issuer's requests, in order, and the token they end in. */
  datatype Exchange = Exchange(result: Result<AccessTokenInfo, Error>, calls: seq<Call>)

  /**
   * Lines 35-48 of `getToken`, once `signer` is at hand: fetch a challenge,
   * sign address ++ challenge, trade the signature for a token, stamp its expiry.
   */
  function ExchangeToken(config: SignerConfig, sdk: Collaborators, signer: UserSigner, later: int): (r: Exchange)
    ensures 1 <= |r.calls| <= 3 && r.calls[0] == Initialize
    ensures sdk.initialize.Failure? ==> r == Exchange(Failure(sdk.initialize.error), [Initialize])
    // success: the issuer gets exactly the signed address and challenge, with the signature in hex
    ensures r.result.Success? ==>
      |r.calls| == 3 && r.calls[2].IssueToken? &&
      var t := r.calls[2];
      var message := SignableMessage(t.address, t.challenge);
      t.address == sdk.getAddress(signer) && sdk.initialize == Success(t.challenge) &&
      r.calls[1] == Sign(message) && sdk.sign(signer, message).Success? &&
      t.signature == HexEncode(sdk.sign(signer, message).value) &&
      r.result.value == AccessTokenInfo(sdk.issueToken(t.address, t.challenge, t.signature),
                                        later + config.expirySeconds * MillisPerSecond)
    // once the challenge is in, address ++ challenge is signed; a signing failure is passed on
    // unchanged, and a signature always ends in a token
    ensures sdk.initialize.Success? ==>
      var message := SignableMessage(sdk.getAddress(signer), sdk.initialize.value);
      |r.calls| >= 2 && r.calls[1] == Sign(message) &&
      (sdk.sign(signer, message).Failure? ==>
        r == Exchange(Failure(sdk.sign(signer, message).error), [Initialize, Sign(message)])) &&
      (sdk.sign(signer, message).Success? ==> r.result.Success?)
    // a failure stops before the issuer is asked for a token
    ensures r.result.Failure? ==> |r.calls| <= 2 && forall c :: c in r.calls ==> !c.IssueToken?
    ensures forall c :: c in r.calls ==> !c.ReadFile? && !c.FromPem?
  {
    match sdk.initialize
    case Failure(e) => Exchange(Failure(e), [Initialize])
    case Success(challenge) =>
      var address := sdk.getAddress(signer);
      var message := SignableMessage(address, challenge);
      match sdk.sign(signer, message)
      case Failure(e) => Exchange(Failure(e), [Initialize, Sign(message)])
      case Success(signature) =>
        var signatureHex := HexEncode(signature);
        var info := AccessTokenInfo(sdk.issueToken(address, challenge, signatureHex),
                                    later + config.expirySeconds * MillisPerSecond);
        Exchange(Success(info), [Initialize, Sign(message), IssueToken(address, challenge, signatureHex)])
  }

  datatype TokenStep = TokenStep(result: Result<AccessTokenInfo, Error>, state: SignerState, calls: seq<Call>)

  /** `getToken`, from state `st`, at time `now`; `later` is the time the expiry is computed at. */
  function GetTokenStep(config: SignerConfig, sdk: Collaborators, st: SignerState, now: int, later: int): (r: TokenStep)
    // a token that outlives the next minute is returned as it is, and nobody is asked anything
    ensures IsReusable(st.accessTokenInfo, now) ==> r == TokenStep(Success(st.accessTokenInfo.value), st, [])
    // otherwise the signer is resolved first, and the issuer is asked only once it is
    ensures !IsReusable(st.accessTokenInfo, now) ==>
      var resolution := ResolveUserSigner(config, sdk, st.userSigner);
      r.state.userSigner == resolution.userSigner &&
      (resolution.result.Failure? ==> r.result == Failure(resolution.result.error) && r.calls == resolution.calls) &&
      (resolution.result.Success? ==>
        var exchange := ExchangeToken(config, sdk, resolution.result.value, later);
        r.result == exchange.result && r.calls == resolution.calls + exchange.calls)
    // a successful refresh replaces the cache with the record it returns
    ensures !IsReusable(st.accessTokenInfo, now) && r.result.Success? ==>
      r.state.accessTokenInfo == Some(r.result.value) &&
      r.result.value.expiryDate == later + config.expirySeconds * MillisPerSecond
    // a failure anywhere leaves the cached token as it was
    ensures r.result.Failure? ==> r.state.accessTokenInfo == st.accessTokenInfo
    // no key source: the configuration error, no call to anybody, and nothing changes
    ensures !IsReusable(st.accessTokenInfo, now) && st.userSigner.None? &&
            !IsSet(config.privateKey) && !IsSet(config.signerPrivateKeyPath) ==>
      r == TokenStep(Failure(MissingKeySourceError), st, [])
    // the issuer is contacted only once a signer has been resolved
    ensures Initialize in r.calls ==> r.state.userSigner.Some?
    // an inline key means the key file is never read
    ensures IsSet(config.privateKey) ==> forall c :: c in r.calls ==> !c.ReadFile?
    // a memoized signer is kept, and no key source is touched
    ensures st.userSigner.Some? ==>
      r.state.userSigner == st.userSigner && forall c :: c in r.calls ==> !c.ReadFile? && !c.FromPem?
    ensures Consistent(st) ==> Consistent(r.state)
  {
    if IsReusable(st.accessTokenInfo, now) then TokenStep(Success(st.accessTokenInfo.value), st, [])
    else
      var resolution := ResolveUserSigner(config, sdk, st.userSigner);
      var st1 := st.(userSigner := resolution.userSigner);
      match resolution.result
      case Failure(e) => TokenStep(Failure(e), st1, resolution.calls)
      case Success(signer) =>
        var exchange := ExchangeToken(config, sdk, signer, later);
        var info := if exchange.result.Success? then Some(exchange.result.value) else st.accessTokenInfo;
        TokenStep(exchange.result, st1.(accessTokenInfo := info), resolution.calls + exchange.calls)
  }

  // ------------------------------------------------- successive getToken calls

  /** One call of `getToken`: what the collaborators answer and the two clock readings. */
  datatype Invocation = Invocation(sdk: Collaborators, now: int, later: int)

  datatype TokenRun = TokenRun(results: seq<Result<AccessTokenInfo, Error>>, state: SignerState, calls: seq<Call>)

  /** Successive `getToken` calls on one signer, from state `st`. */
  function RunGetToken(config: SignerConfig, st: SignerState, invocations: seq<Invocation>): (r: TokenRun)
    ensures |r.results| == |invocations|
    decreases |invocations|
  {
    if invocations == [] then TokenRun([], st, [])
    else
      var inv := invocations[0];
      var step := GetTokenStep(config, inv.sdk, st, inv.now, inv.later);
      var rest := RunGetToken(config, step.state, invocations[1..]);
      TokenRun([step.result] + rest.results, rest.state, step.calls + rest.calls)
  }

  predicate AllSucceed(results: seq<Result<AccessTokenInfo, Error>>)
  {
    forall i :: 0 <= i < |results| ==> results[i].Success?
  }

  /** The number of key-file reads among `calls`. */
  function FileReads(calls: seq<Call>): (n: nat)
    ensures n <= |calls|
  {
    if calls == [] then 0 else (if calls[0].ReadFile? then 1 else 0) + FileReads(calls[1..])
  }

  /** The number of `fromPem` calls among `calls`. */
  function SignerBuilds(calls: seq<Call>): (n: nat)
    ensures n <= |calls|
  {
    if calls == [] then 0 else (if calls[0].FromPem? then 1 else 0) + SignerBuilds(calls[1..])
  }

  lemma {:induction false} CountsAppend(a: seq<Call>, b: seq<Call>)
    ensures FileReads(a + b) == FileReads(a) + FileReads(b)
    ensures SignerBuilds(a + b) == SignerBuilds(a) + SignerBuilds(b)
  {
    if a == [] {
      assert a + b == b;
    } else {
      assert (a + b)[0] == a[0] && (a + b)[1..] == a[1..] + b;
      CountsAppend(a[1..], b);
    }
  }

  lemma {:induction false} CountsWithoutKeyAccess(calls: seq<Call>)
    requires forall c :: c in calls ==> !c.ReadFile? && !c.FromPem?
    ensures FileReads(calls) == 0 && SignerBuilds(calls) == 0
  {
    if calls != [] {
      assert calls[0] in calls;
      assert forall c :: c in calls[1..] ==> c in calls;
      CountsWithoutKeyAccess(calls[1..]);
    }
  }

  /** Once a signer is memoized it is never replaced, and no later call reads a key or builds a signer. */
  lemma {:induction false} MemoizedSignerIsKept(config: SignerConfig, st: SignerState, invocations: seq<Invocation>)
    requires st.userSigner.Some?
    ensures var r := RunGetToken(config, st, invocations);
      r.state.userSigner == st.userSigner && forall c :: c in r.calls ==> !c.ReadFile? && !c.FromPem?
    decreases |invocations|
  {
    if invocations != [] {
      var inv := invocations[0];
      var step := GetTokenStep(config, inv.sdk, st, inv.now, inv.later);
      MemoizedSignerIsKept(config, step.state, invocations[1..]);
    }
  }

  /**
   * Over any run of calls that all succeed, the key file is read at most
   * once and `fromPem` is called at most once: the resolved signer is reused.
   */
  lemma {:induction false} KeyResolvedAtMostOnce(config: SignerConfig, st: SignerState, invocations: seq<Invocation>)
    requires AllSucceed(RunGetToken(config, st, invocations).results)
    ensures var r := RunGetToken(config, st, invocations);
      FileReads(r.calls) <= 1 && SignerBuilds(r.calls) <= 1
    ensures st.userSigner.Some? ==> var r := RunGetToken(config, st, invocations);
      FileReads(r.calls) == 0 && SignerBuilds(r.calls) == 0
    decreases |invocations|
  {
    var r := RunGetToken(config, st, invocations);
    if st.userSigner.Some? {
      MemoizedSignerIsKept(config, st, invocations);
      CountsWithoutKeyAccess(r.calls);
    } else if invocations != [] {
      var inv := invocations[0];
      var step := GetTokenStep(config, inv.sdk, st, inv.now, inv.later);
      var rest := RunGetToken(config, step.state, invocations[1..]);
      assert r == TokenRun([step.result] + rest.results, rest.state, step.calls + rest.calls);
      assert r.results[0] == step.result;
      assert AllSucceed(rest.results) by {
        forall i | 0 <= i < |rest.results| ensures rest.results[i].Success? {
          assert r.results[i + 1] == rest.results[i];
        }
      }
      CountsAppend(step.calls, rest.calls);
      if IsReusable(st.accessTokenInfo, inv.now) {
        KeyResolvedAtMostOnce(config, step.state, invocations[1..]);
      } else {
        var resolution := ResolveUserSigner(config, inv.sdk, st.userSigner);
        var exchange := ExchangeToken(config, inv.sdk, resolution.result.value, inv.later);
        CountsAppend(resolution.calls, exchange.calls);
        CountsWithoutKeyAccess(exchange.calls);
        assert FileReads(resolution.calls) <= 1 && SignerBuilds(resolution.calls) <= 1 by {
          var cs := resolution.calls;
          if |cs| == 2 {
            assert cs == [cs[0]] + [cs[1]];
            CountsAppend([cs[0]], [cs[1]]);
          }
        }
        KeyResolvedAtMostOnce(config, step.state, invocations[1..]);
      }
    }
  }

  /** While the cached token outlives the next minute, every call returns it and nothing else happens. */
  lemma {:induction false} FreshTokenIsReused(config: SignerConfig, st: SignerState, invocations: seq<Invocation>)
    requires st.accessTokenInfo.Some?
    requires forall i :: 0 <= i < |invocations| ==>
      invocations[i].now + ExpiryLookaheadMs <= st.accessTokenInfo.value.expiryDate
    ensures var r := RunGetToken(config, st, invocations);
      r.state == st && r.calls == [] &&
      forall i :: 0 <= i < |r.results| ==> r.results[i] == Success(st.accessTokenInfo.value)
    decreases |invocations|
  {
    if invocations != [] {
      assert invocations[0].now + ExpiryLookaheadMs <= st.accessTokenInfo.value.expiryDate;
      FreshTokenIsReused(config, st, invocations[1..]);
      var rest := RunGetToken(config, st, invocations[1..]);
      var r := RunGetToken(config, st, invocations);
      forall i | 0 <= i < |r.results| ensures r.results[i] == Success(st.accessTokenInfo.value) {
        if i > 0 { assert r.results[i] == rest.results[i - 1]; }
      }
    }
  }

  /** With no key source configured, every call fails with the configuration error and nobody is asked anything. */
  lemma {:induction false} MissingKeySourceNeverRecovers(config: SignerConfig, invocations: seq<Invocation>)
    requires !IsSet(config.privateKey) && !IsSet(config.signerPrivateKeyPath)
    ensures var st := SignerState(None, None);
      var r := RunGetToken(config, st, invocations);
      r.state == st && r.calls == [] &&
      forall i :: 0 <= i < |r.results| ==> r.results[i] == Failure(MissingKeySourceError)
  {
    if invocations != [] {
      var st := SignerState(None, None);
      MissingKeySourceNeverRecovers(config, invocations[1..]);
      var rest := RunGetToken(config, st, invocations[1..]);
      var r := RunGetToken(config, st, invocations);
      forall i | 0 <= i < |r.results| ensures r.results[i] == Failure(MissingKeySourceError) {
        if i > 0 { assert r.results[i] == rest.results[i - 1]; }
      }
    }
  }

  // ------------------------------------------------------------ the class

  /** `NativeAuthSigner`: the configuration, the memoized signer and the cached token. */
  class NativeAuthSigner {
    const config: SignerConfig
    var userSigner: Option<UserSigner>
    var accessTokenInfo: Option<AccessTokenInfo>
    /** Every collaborator call made so far, oldest first. */
    ghost var calls: seq<Call>

    ghost function State(): SignerState
      reads this
    {
      SignerState(userSigner, accessTokenInfo)
    }

    ghost predicate Valid()
      reads this
    {
      Consistent(State())
    }

    constructor (config: SignerConfig)
      ensures Valid() && this.config == config
      ensures State() == SignerState(None, None) && calls == []
    {
      this.config := config;
      userSigner := None;
      accessTokenInfo := None;
      calls := [];
    }

    /** `getUserSigner`. */
    method GetUserSigner(sdk: Collaborators) returns (r: Result<UserSigner, Error>)
      modifies this`userSigner, this`calls
      ensures var s := ResolveUserSigner(config, sdk, old(userSigner));
        r == s.result && userSigner == s.userSigner && calls == old(calls) + s.calls
    {
      if userSigner.Some? {
        return Success(userSigner.value);
      }
      if IsSet(config.privateKey) {
        calls := calls + [FromPem(config.privateKey.value)];
        r := sdk.fromPem(config.privateKey.value);
        if r.Success? {
          userSigner := Some(r.value);
        }
      } else if IsSet(config.signerPrivateKeyPath) {
        calls := calls + [ReadFile(config.signerPrivateKeyPath.value)];
        var pemFile := sdk.readFile(config.signerPrivateKeyPath.value);
        if pemFile.Failure? {
          return Failure(pemFile.error);
        }
        var pemKey := pemFile.value;
        calls := calls + [FromPem(pemKey)];
        r := sdk.fromPem(pemKey);
        if r.Success? {
          userSigner := Some(r.value);
        }
      } else {
        r := Failure(MissingKeySourceError);
      }
    }

    /** `getSignableToken`: the issuer's challenge. */
    method GetSignableToken(sdk: Collaborators) returns (r: Result<string, Error>)
      modifies this`calls
      ensures r == sdk.initialize && calls == old(calls) + [Initialize]
    {
      calls := calls + [Initialize];
      r := sdk.initialize;
    }

    /** `getToken`: the cached token while it outlives the next minute, a fresh one otherwise. */
    method GetToken(sdk: Collaborators, now: int, later: int) returns (r: Result<AccessTokenInfo, Error>)
      requires Valid()
      modifies this`userSigner, this`accessTokenInfo, this`calls
      ensures Valid()
      ensures var s := GetTokenStep(config, sdk, old(State()), now, later);
        r == s.result && State() == s.state && calls == old(calls) + s.calls
    {
      var currentDate := now + ExpiryLookaheadMs;
      if accessTokenInfo.Some? && currentDate <= accessTokenInfo.value.expiryDate {
        return Success(accessTokenInfo.value);
      }
      ghost var st := State();
      ghost var resolution := ResolveUserSigner(config, sdk, st.userSigner);
      var signer := GetUserSigner(sdk);
      if signer.Failure? {
        assert GetTokenStep(config, sdk, st, now, later) ==
          TokenStep(Failure(signer.error), st.(userSigner := resolution.userSigner), resolution.calls);
        return Failure(signer.error);
      }
      ghost var exchange := ExchangeToken(config, sdk, signer.value, later);
      r := RequestToken(sdk, signer.value, later);
      assert GetTokenStep(config, sdk, st, now, later) ==
        TokenStep(exchange.result, SignerState(userSigner, accessTokenInfo), resolution.calls + exchange.calls);
    }

    /** Lines 35-48 of `getToken`: the exchange with the issuer, and the cache update it ends in. */
    method RequestToken(sdk: Collaborators, signer: UserSigner, later: int) returns (r: Result<AccessTokenInfo, Error>)
      modifies this`accessTokenInfo, this`calls
      ensures var x := ExchangeToken(config, sdk, signer, later);
        r == x.result && calls == old(calls) + x.calls &&
        accessTokenInfo == if r.Success? then Some(r.value) else old(accessTokenInfo)
    {
      var signableToken := GetSignableToken(sdk);
      if signableToken.Failure? {
        return Failure(signableToken.error);
      }
      var signerAddress := sdk.getAddress(signer);
      var signableMessage := SignableMessage(signerAddress, signableToken.value);
      calls := calls + [Sign(signableMessage)];
      var signature := sdk.sign(signer, signableMessage);
      if signature.Failure? {
        return Failure(signature.error);
      }
      var signatureHex := HexEncode(signature.value);
      calls := calls + [IssueToken(signerAddress, signableToken.value, signatureHex)];
      var token := sdk.issueToken(signerAddress, signableToken.value, signatureHex);
      var expiryDate := later + config.expirySeconds * MillisPerSecond;
      accessTokenInfo := Some(AccessTokenInfo(token, expiryDate));
      r := Success(accessTokenInfo.value);
    }
  }
}
