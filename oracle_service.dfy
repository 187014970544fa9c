/** oracle-service/server.js: the Express oracle. `OracleService` holds the
    ledger connection it built at start-up (or none, in demo mode); the two
    routes validate a request, consult the scoring engine and hand a
    submission to the service. */
module OracleServiceJs {
  import opened Wrappers
  import opened Bridge

  /** The environment variables the service reads. */
  datatype ServerEnv = ServerEnv(rpcUrl: Option<string>, contractAddress: Option<string>, privateKey: Option<string>)

  /** `RPC_URL`, defaulting to a local node. */
  function RpcUrl(env: ServerEnv): (url: string)
    ensures url != ""
  {
    if env.rpcUrl.Some? && env.rpcUrl.value != "" then env.rpcUrl.value else "http://localhost:8545"
  }

  /** How building the ledger objects ends: all three built, or the wallet
      (an unusable key) or the contract (an unusable address) throwing. */
  datatype Setup = Built | WalletRejected | ContractRejected

  class OracleService {
    /** The node URL of `this.provider`, the key of `this.wallet`, the address
        of `this.contract`; None while null. */
    var provider: Option<string>
    var wallet: Option<string>
    var contract: Option<string>
    var isInitialized: bool

    constructor ()
      ensures provider.None? && wallet.None? && contract.None? && !isInitialized
    {
      provider := None;
      wallet := None;
      contract := None;
      isInitialized := false;
    }

    /** `initialize`: demo mode when the address or the key is missing;
        otherwise build provider, wallet and contract in that order, and
        become initialized only when all three are built. */
    method Initialize(env: ServerEnv, setup: Setup)
      modifies this
      ensures isInitialized <==>
        Truthy(EnvValue(env.contractAddress)) && Truthy(EnvValue(env.privateKey)) && setup == Built
      ensures !(Truthy(EnvValue(env.contractAddress)) && Truthy(EnvValue(env.privateKey))) ==>
        provider == old(provider) && wallet == old(wallet) && contract == old(contract)
      ensures Truthy(EnvValue(env.contractAddress)) && Truthy(EnvValue(env.privateKey)) ==>
        && provider == Some(RpcUrl(env))
        && wallet == (if setup == WalletRejected then old(wallet) else env.privateKey)
        && contract == (if setup == Built then env.contractAddress else old(contract))
      ensures isInitialized ==> provider.Some? && wallet.Some? && contract.Some?
    {
      if !Truthy(EnvValue(env.contractAddress)) || !Truthy(EnvValue(env.privateKey)) {
        isInitialized := false;
        return;
      }
      provider := Some(RpcUrl(env));
      if setup == WalletRejected {
        isInitialized := false;
        return;
      }
      wallet := env.privateKey;
      if setup == ContractRejected {
        isInitialized := false;
        return;
      }
      contract := env.contractAddress;
      isInitialized := true;
    }

    /** `submitToBlockchain`: in demo mode resolve to the demo receipt
        without touching the ledger; otherwise send the transaction and
        resolve to its hash, or rethrow the ledger's error. */
    method SubmitToBlockchain(submission: Submission, ledger: Remote<string>)
      returns (r: Result<Receipt, string>, sent: Option<Submission>)
      ensures !isInitialized ==> r == Ok(Demo) && sent.None?
      ensures isInitialized ==> sent == Some(submission)
      ensures isInitialized && ledger.Reply? ==> r == Ok(OnChain(ledger.value))
      ensures isInitialized && ledger.Failure? ==> r == Err(ledger.message)
    {
      if !isInitialized {
        return Ok(Demo), None;
      }
      sent := Some(submission);
      match ledger
      case Reply(hash) => r := Ok(OnChain(hash));
      case Failure(message) => r := Err(message);
    }
  }

  /** `POST /request-prediction`. */
  method RequestPrediction(oracle: OracleService, body: PredictionRequest, ai: Remote<AiResponse>,
                           ledger: Remote<string>) returns (flow: Flow)
    ensures !Truthy(body.contractId) || !Truthy(body.modelType) ==>
      flow == Flow(BadRequest("contractId and modelType required"), false, None)
    ensures Truthy(body.contractId) && Truthy(body.modelType) ==> flow.aiCalled
    ensures ai.Failure? && flow.aiCalled ==> flow == Flow(ServerError(ai.message), true, None)
    ensures ai.Reply? && flow.aiCalled && HasError(ai.value) ==>
      flow == Flow(ServerError(ai.value.error.value), true, None)
    ensures ai.Reply? && flow.aiCalled && !HasError(ai.value) && !Truthy(body.submitToChain) ==>
      flow == Flow(Predicted(ai.value, None), true, None)
    ensures ai.Reply? && flow.aiCalled && !HasError(ai.value) && Truthy(body.submitToChain) ==>
      var s := Submission(body.contractId, body.modelType, Num(TruthyScalar(ai.value) as real),
                          NumberValue(ai.value.confidence));
      && (!oracle.isInitialized ==> flow == Flow(Predicted(ai.value, Some(Demo)), true, None))
      && (oracle.isInitialized && ledger.Reply? ==>
            flow == Flow(Predicted(ai.value, Some(OnChain(ledger.value))), true, Some(s)))
      && (oracle.isInitialized && ledger.Failure? ==> flow == Flow(ServerError(ledger.message), true, Some(s)))
  {
    if !Truthy(body.contractId) || !Truthy(body.modelType) {
      return Flow(BadRequest("contractId and modelType required"), false, None);
    }
    if ai.Failure? {
      return Flow(ServerError(ai.message), true, None);
    }
    var prediction := ai.value;
    if HasError(prediction) {
      return Flow(ServerError(prediction.error.value), true, None);
    }
    var blockchain: Option<Receipt> := None;
    var sent: Option<Submission> := None;
    if Truthy(body.submitToChain) {
      var value := TruthyScalar(prediction);
      var submission := Submission(body.contractId, body.modelType, Num(value as real), NumberValue(prediction.confidence));
      var result;
      result, sent := oracle.SubmitToBlockchain(submission, ledger);
      if result.Err? {
        return Flow(ServerError(result.error), true, sent);
      }
      blockchain := Some(result.value);
    }
    flow := Flow(Predicted(prediction, blockchain), true, sent);
  }

  /** `POST /submit-to-chain`: the fields are checked with `!`, except
      `value`, which only has to be defined; a confidence of 0 is refused. */
  method SubmitToChain(oracle: OracleService, body: SubmitRequest, ledger: Remote<string>) returns (flow: Flow)
    ensures var ok := Truthy(body.contractId) && Truthy(body.predictionType) && body.value != Undefined
                      && Truthy(body.confidence);
      && (!ok ==> flow == Flow(BadRequest("Missing required fields"), false, None))
      && (ok && !oracle.isInitialized ==> flow == Flow(Submitted(Demo), false, None))
      && (ok && oracle.isInitialized ==>
            var s := Submission(body.contractId, body.predictionType, body.value, body.confidence);
            && (ledger.Reply? ==> flow == Flow(Submitted(OnChain(ledger.value)), false, Some(s)))
            && (ledger.Failure? ==> flow == Flow(ServerError(ledger.message), false, Some(s))))
  {
    if !Truthy(body.contractId) || !Truthy(body.predictionType) || body.value == Undefined || !Truthy(body.confidence) {
      return Flow(BadRequest("Missing required fields"), false, None);
    }
    var submission := Submission(body.contractId, body.predictionType, body.value, body.confidence);
    var result, sent := oracle.SubmitToBlockchain(submission, ledger);
    if result.Err? {
      return Flow(ServerError(result.error), false, sent);
    }
    flow := Flow(Submitted(result.value), false, sent);
  }
}
