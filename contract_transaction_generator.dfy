/**
 * `ContractTransactionGenerator`
 * (packages/common/src/sc.interactions/contract.transaction.generator.ts):
 * completes a transaction built from a smart-contract interaction with the
 * signer's on-chain nonce and the network's chain ID, memoizing the network
 * configuration.
 *
 * The network provider and the SDK's `buildTransaction` are the
 * `Collaborators` of one call; the provider requests are recorded as a
 * sequence of `ProxyCall`s.
 */
module ScInteractions {
  import opened Wrappers

  const LoadNetworkConfigError: Error := Error("Error when loading network config")

  /** The SDK's `NetworkConfig`: the chain ID and the parameters this model does not use. */
  datatype NetworkConfig = NetworkConfig(chainId: string, otherParameters: map<string, int>)

  /** The SDK's `AccountOnNetwork`, as far as it matters here. */
  datatype AccountOnNetwork = AccountOnNetwork(address: string, nonce: nat, balance: nat)

  /** The fields of an SDK `Transaction`. */
  datatype TransactionData = TransactionData(
    nonce: nat,
    value: nat,
    sender: string,
    receiver: string,
    gasPrice: nat,
    gasLimit: nat,
    data: string,
    chainId: string,
    version: nat)

  /** An SDK `Interaction`: a call of `functionName` on the contract at `contractAddress`. */
  datatype Interaction = Interaction(
    contractAddress: string,
    functionName: string,
    arguments: seq<string>,
    nonce: nat,
    gasLimit: nat,
    value: nat)

  /** What the surroundings answer during one call of `createTransaction`. */
  datatype Collaborators = Collaborators(
    buildTransaction: Interaction -> Result<TransactionData, Error>, // interaction.buildTransaction()
    getAccount: string -> Result<AccountOnNetwork, Error>,          // proxy.getAccount(address)
    getNetworkConfig: Result<NetworkConfig, Error>)                  // proxy.getNetworkConfig()

  /** A request made to the network provider. */
  datatype ProxyCall = FetchAccount(address: string) | FetchNetworkConfig

  /** `loadNetworkConfig`: a failure of the provider is replaced by the generic error. */
  function LoadNetworkConfigResult(fetched: Result<NetworkConfig, Error>): (r: Result<NetworkConfig, Error>)
    ensures r.Success? <==> fetched.Success?
    ensures fetched.Success? ==> r == fetched
    ensures r.Failure? ==> r.error == LoadNetworkConfigError
  {
    match fetched
    case Success(config) => Success(config)
    case Failure(_) => Failure(LoadNetworkConfigError)
  }

  datatype ConfigLookup = ConfigLookup(
    result: Result<NetworkConfig, Error>,
    networkConfig: Option<NetworkConfig>,
    calls: seq<ProxyCall>)

  /** `getNetworkConfig`, from the memoized configuration `memo`. */
  function LookupNetworkConfig(memo: Option<NetworkConfig>, sdk: Collaborators): (r: ConfigLookup)
    // a memoized configuration is returned as it is, and the provider is not asked
    ensures memo.Some? ==> r == ConfigLookup(Success(memo.value), memo, [])
    // otherwise the provider is asked once
    ensures memo.None? ==> r.calls == [FetchNetworkConfig]
    // only a successful load is memoized, and it is what is returned
    ensures r.result.Success? <==> r.networkConfig.Some?
    ensures r.result.Success? ==> r.networkConfig == Some(r.result.value)
    // otherwise the answer is the load's: the fetched configuration, or the load error
    ensures memo.None? ==> r.result == LoadNetworkConfigResult(sdk.getNetworkConfig)
    ensures r.result.Failure? ==> r.result.error == LoadNetworkConfigError && r.networkConfig == None
  {
    if memo.Some? then ConfigLookup(Success(memo.value), memo, [])
    else
      var loaded := LoadNetworkConfigResult(sdk.getNetworkConfig);
      ConfigLookup(loaded, if loaded.Success? then Some(loaded.value) else None, [FetchNetworkConfig])
  }

  datatype GeneratorStep = GeneratorStep(
    result: Result<TransactionData, Error>,
    networkConfig: Option<NetworkConfig>,
    calls: seq<ProxyCall>)

  /** `createTransaction(interaction, signerAddress)`, from the memoized configuration `memo`. */
  function CreateTransactionStep(memo: Option<NetworkConfig>, sdk: Collaborators,
                                 interaction: Interaction, signerAddress: string): (r: GeneratorStep)
    // success: the built transaction with the account's nonce and the memoized chain ID, nothing else changed
    ensures r.result.Success? ==>
      var built := sdk.buildTransaction(interaction);
      var account := sdk.getAccount(signerAddress);
      built.Success? && account.Success? && r.networkConfig.Some? &&
      r.result.value.nonce == account.value.nonce &&
      r.result.value.chainId == r.networkConfig.value.chainId &&
      r.result.value.(nonce := built.value.nonce, chainId := built.value.chainId) == built.value
    // the account is asked for first; the configuration only after it answered, and only if none is memoized
    ensures sdk.buildTransaction(interaction).Success? ==> |r.calls| >= 1 && r.calls[0] == FetchAccount(signerAddress)
    ensures FetchNetworkConfig in r.calls ==>
      memo.None? && sdk.getAccount(signerAddress).Success? &&
      r.calls == [FetchAccount(signerAddress), FetchNetworkConfig]
    ensures sdk.buildTransaction(interaction).Success? && sdk.getAccount(signerAddress).Failure? ==>
      r == GeneratorStep(Failure(sdk.getAccount(signerAddress).error), memo, [FetchAccount(signerAddress)])
    ensures sdk.buildTransaction(interaction).Failure? ==>
      r == GeneratorStep(Failure(sdk.buildTransaction(interaction).error), memo, [])
    // once the account answered, the configuration lookup decides the memo, the chain ID and the outcome
    ensures sdk.buildTransaction(interaction).Success? && sdk.getAccount(signerAddress).Success? ==>
      var lookup := LookupNetworkConfig(memo, sdk);
      r.networkConfig == lookup.networkConfig && r.calls == [FetchAccount(signerAddress)] + lookup.calls &&
      (lookup.result.Failure? ==> r.result == Failure(lookup.result.error)) &&
      (lookup.result.Success? ==> r.result.Success? && r.result.value.chainId == lookup.result.value.chainId)
    // a memoized configuration is final
    ensures memo.Some? ==> r.networkConfig == memo && FetchNetworkConfig !in r.calls
    // a memo is set only by a successful call
    ensures memo.None? && r.networkConfig.Some? ==> r.result.Success?
    // a failure is what a collaborator threw, passed on unchanged, or the load error
    ensures r.result.Failure? ==>
      (sdk.buildTransaction(interaction).Failure? && r.result.error == sdk.buildTransaction(interaction).error) ||
      (sdk.getAccount(signerAddress).Failure? && r.result.error == sdk.getAccount(signerAddress).error) ||
      (memo.None? && sdk.getNetworkConfig.Failure? && r.result.error == LoadNetworkConfigError)
    ensures r.result.Failure? ==> r.networkConfig == memo
  {
    match sdk.buildTransaction(interaction)
    case Failure(e) => GeneratorStep(Failure(e), memo, [])
    case Success(transaction) =>
      match sdk.getAccount(signerAddress)
      case Failure(e) => GeneratorStep(Failure(e), memo, [FetchAccount(signerAddress)])
      case Success(signerAccount) =>
        var lookup := LookupNetworkConfig(memo, sdk);
        var calls := [FetchAccount(signerAddress)] + lookup.calls;
        match lookup.result
        case Failure(e) => GeneratorStep(Failure(e), lookup.networkConfig, calls)
        case Success(networkConfig) =>
          var completed := transaction.(nonce := signerAccount.nonce, chainId := networkConfig.chainId);
          GeneratorStep(Success(completed), lookup.networkConfig, calls)
  }

  /** The behaviour the unit test checks: the interaction's own nonce (7) loses to the account's (10). */
  lemma AccountNonceOverridesInteractionNonce(sdk: Collaborators, interaction: Interaction, signerAddress: string)
    requires interaction.nonce == 7
    requires sdk.buildTransaction(interaction).Success? && sdk.buildTransaction(interaction).value.nonce == interaction.nonce
    requires sdk.getAccount(signerAddress).Success? && sdk.getAccount(signerAddress).value.nonce == 10
    requires sdk.getNetworkConfig.Success?
    ensures var r := CreateTransactionStep(None, sdk, interaction, signerAddress);
      r.result.Success? && r.result.value.nonce == 10 &&
      r.calls == [FetchAccount(signerAddress), FetchNetworkConfig]
  {
  }

  // --------------------------------------------- successive createTransaction calls

  /** One call of `createTransaction`: its arguments and what the collaborators answer. */
  datatype Request = Request(sdk: Collaborators, interaction: Interaction, signerAddress: string)

  datatype GeneratorRun = GeneratorRun(
    results: seq<Result<TransactionData, Error>>,
    networkConfig: Option<NetworkConfig>,
    calls: seq<ProxyCall>)

  /** Successive `createTransaction` calls on one generator, from the memoized configuration `memo`. */
  function RunCreateTransaction(memo: Option<NetworkConfig>, requests: seq<Request>): (r: GeneratorRun)
    ensures |r.results| == |requests|
    decreases |requests|
  {
    if requests == [] then GeneratorRun([], memo, [])
    else
      var q := requests[0];
      var step := CreateTransactionStep(memo, q.sdk, q.interaction, q.signerAddress);
      var rest := RunCreateTransaction(step.networkConfig, requests[1..]);
      GeneratorRun([step.result] + rest.results, rest.networkConfig, step.calls + rest.calls)
  }

  /** The number of network-configuration requests among `calls`. */
  function ConfigFetches(calls: seq<ProxyCall>): (n: nat)
    ensures n <= |calls|
  {
    if calls == [] then 0 else (if calls[0] == FetchNetworkConfig then 1 else 0) + ConfigFetches(calls[1..])
  }

  lemma {:induction false} ConfigFetchesAppend(a: seq<ProxyCall>, b: seq<ProxyCall>)
    ensures ConfigFetches(a + b) == ConfigFetches(a) + ConfigFetches(b)
  {
    if a == [] {
      assert a + b == b;
    } else {
      assert (a + b)[0] == a[0] && (a + b)[1..] == a[1..] + b;
      ConfigFetchesAppend(a[1..], b);
    }
  }

  lemma {:induction false} NoConfigFetches(calls: seq<ProxyCall>)
    requires FetchNetworkConfig !in calls
    ensures ConfigFetches(calls) == 0
  {
    if calls != [] {
      assert calls[0] in calls;
      NoConfigFetches(calls[1..]);
    }
  }

  predicate AllSucceed(results: seq<Result<TransactionData, Error>>)
  {
    forall i :: 0 <= i < |results| ==> results[i].Success?
  }

  /**
   * Once the configuration is memoized it is never fetched again and never
   * replaced, and every transaction built from then on carries its chain ID.
   */
  lemma {:induction false} MemoizedConfigIsFinal(config: NetworkConfig, requests: seq<Request>)
    decreases |requests|
    ensures var r := RunCreateTransaction(Some(config), requests);
      r.networkConfig == Some(config) && ConfigFetches(r.calls) == 0 &&
      forall i :: 0 <= i < |r.results| && r.results[i].Success? ==> r.results[i].value.chainId == config.chainId
  {
    if requests != [] {
      var q := requests[0];
      var step := CreateTransactionStep(Some(config), q.sdk, q.interaction, q.signerAddress);
      var rest := RunCreateTransaction(step.networkConfig, requests[1..]);
      var r := RunCreateTransaction(Some(config), requests);
      MemoizedConfigIsFinal(config, requests[1..]);
      NoConfigFetches(step.calls);
      ConfigFetchesAppend(step.calls, rest.calls);
      forall i | 0 <= i < |r.results| && r.results[i].Success? ensures r.results[i].value.chainId == config.chainId {
        if i > 0 { assert r.results[i] == rest.results[i - 1]; }
      }
    }
  }

  /** All successful results carry one chain ID. */
  predicate SameChainId(results: seq<Result<TransactionData, Error>>)
  {
    forall i, j :: 0 <= i < |results| && 0 <= j < |results| && results[i].Success? && results[j].Success? ==>
      results[i].value.chainId == results[j].value.chainId
  }

  /** Two transactions built by one generator always carry the same chain ID: it is never refreshed. */
  lemma {:induction false} ChainIdNeverChanges(memo: Option<NetworkConfig>, requests: seq<Request>)
    decreases |requests|
    ensures SameChainId(RunCreateTransaction(memo, requests).results)
  {
    if requests != [] {
      var q := requests[0];
      var step := CreateTransactionStep(memo, q.sdk, q.interaction, q.signerAddress);
      var rest := RunCreateTransaction(step.networkConfig, requests[1..]);
      var r := RunCreateTransaction(memo, requests);
      assert r.results == [step.result] + rest.results;
      if step.result.Success? {
        var config := step.networkConfig.value;
        assert rest == RunCreateTransaction(Some(config), requests[1..]);
        MemoizedConfigIsFinal(config, requests[1..]);
        forall i | 0 <= i < |r.results| && r.results[i].Success? ensures r.results[i].value.chainId == config.chainId {
          if i > 0 { assert r.results[i] == rest.results[i - 1]; }
        }
      } else {
        ChainIdNeverChanges(step.networkConfig, requests[1..]);
        assert SameChainId(rest.results);
        forall i, j | 0 <= i < |r.results| && 0 <= j < |r.results| && r.results[i].Success? && r.results[j].Success?
          ensures r.results[i].value.chainId == r.results[j].value.chainId
        {
          assert r.results[0] == step.result;
          assert i > 0 && j > 0;
          assert r.results[i] == rest.results[i - 1] && r.results[j] == rest.results[j - 1];
          assert rest.results[i - 1].Success? && rest.results[j - 1].Success?;
          assert rest.results[i - 1].value.chainId == rest.results[j - 1].value.chainId;
        }
      }
    }
  }

  /**
   * From a fresh generator, a non-empty run of calls that all succeed asks
   * the provider for the network configuration exactly once.
   */
  lemma {:induction false} ConfigFetchedOnce(requests: seq<Request>)
    requires |requests| >= 1
    requires AllSucceed(RunCreateTransaction(None, requests).results)
    ensures ConfigFetches(RunCreateTransaction(None, requests).calls) == 1
  {
    var q := requests[0];
    var step := CreateTransactionStep(None, q.sdk, q.interaction, q.signerAddress);
    var rest := RunCreateTransaction(step.networkConfig, requests[1..]);
    var r := RunCreateTransaction(None, requests);
    assert r.results[0] == step.result;
    assert step.calls == [FetchAccount(q.signerAddress), FetchNetworkConfig];
    assert ConfigFetches(step.calls) == 1 by {
      assert step.calls[1..] == [FetchNetworkConfig];
    }
    MemoizedConfigIsFinal(step.networkConfig.value, requests[1..]);
    ConfigFetchesAppend(step.calls, rest.calls);
  }

  // ------------------------------------------------------------ the classes

  /** An SDK `Transaction` object, updated in place by its setters. */
  class Transaction {
    var data: TransactionData

    constructor (data: TransactionData)
      ensures this.data == data
    {
      this.data := data;
    }

    method SetNonce(nonce: nat)
      modifies this
      ensures data == old(data).(nonce := nonce)
    {
      data := data.(nonce := nonce);
    }

    method SetChainID(chainId: string)
      modifies this
      ensures data == old(data).(chainId := chainId)
    {
      data := data.(chainId := chainId);
    }
  }

  /** `ContractTransactionGenerator`: the memoized network configuration. */
  class ContractTransactionGenerator {
    var networkConfig: Option<NetworkConfig>
    /** Every provider request made so far, oldest first. */
    ghost var calls: seq<ProxyCall>

    constructor ()
      ensures networkConfig == None && calls == []
    {
      networkConfig := None;
      calls := [];
    }

    /** `loadNetworkConfig`. */
    method LoadNetworkConfig(sdk: Collaborators) returns (r: Result<NetworkConfig, Error>)
      modifies this`calls
      ensures r == LoadNetworkConfigResult(sdk.getNetworkConfig) && calls == old(calls) + [FetchNetworkConfig]
    {
      calls := calls + [FetchNetworkConfig];
      var fetched := sdk.getNetworkConfig;
      if fetched.Failure? {
        return Failure(LoadNetworkConfigError);
      }
      r := fetched;
    }

    /** `getNetworkConfig`. */
    method GetNetworkConfig(sdk: Collaborators) returns (r: Result<NetworkConfig, Error>)
      modifies this`networkConfig, this`calls
      ensures var s := LookupNetworkConfig(old(networkConfig), sdk);
        r == s.result && networkConfig == s.networkConfig && calls == old(calls) + s.calls
    {
      if networkConfig.None? {
        var loaded := LoadNetworkConfig(sdk);
        if loaded.Failure? {
          return loaded;
        }
        networkConfig := Some(loaded.value);
      }
      r := Success(networkConfig.value);
    }

    /** `createTransaction`: a new transaction, or the error that stopped it. */
    method CreateTransaction(interaction: Interaction, signerAddress: string, sdk: Collaborators)
      returns (r: Result<Transaction, Error>)
      modifies this`networkConfig, this`calls
      ensures var s := CreateTransactionStep(old(networkConfig), sdk, interaction, signerAddress);
        networkConfig == s.networkConfig && calls == old(calls) + s.calls &&
        r.Success? == s.result.Success? &&
        (r.Success? ==> fresh(r.value) && r.value.data == s.result.value) &&
        (r.Failure? ==> r.error == s.result.error)
    {
      var built := sdk.buildTransaction(interaction);
      if built.Failure? {
        return Failure(built.error);
      }
      var transaction := new Transaction(built.value);

      calls := calls + [FetchAccount(signerAddress)];
      var signerAccount := sdk.getAccount(signerAddress);
      if signerAccount.Failure? {
        return Failure(signerAccount.error);
      }
      transaction.SetNonce(signerAccount.value.nonce);

      var config := GetNetworkConfig(sdk);
      if config.Failure? {
        return Failure(config.error);
      }
      transaction.SetChainID(config.value.chainId);

      r := Success(transaction);
    }
  }
}
