/** The paying side of x402: an agent's HTTP client that answers a 402 by paying
    the advertised price and retrying with the payment proof, guarded by a
    per-request ceiling and a cumulative budget. The HTTP exchanges and the
    Stacks payment are oracles: the response to the unpaid request, the outcome
    of `makePayment`, and the response to the retry for each transaction id. */
module Client {
  import opened Wrappers
  import opened Decimal
  import opened Transfers
  import Gate
  import Pricing

  /** The client's options; a missing option is `None`. */
  datatype ClientConfig = ClientConfig(
    agentName: string,
    network: Option<string>,
    maxPaymentPerRequest: Option<int>,
    budgetLimit: Option<int>)

  const DEFAULT_MAX_PER_REQUEST: int := 10_000
  const DEFAULT_BUDGET_LIMIT: int := 1_000_000

  /** `value || fallback` on a numeric option: missing or 0 takes the fallback. */
  function OrDefault(value: Option<int>, fallback: int): (r: int)
    ensures value.Some? && value.value != 0 ==> r == value.value
    ensures value.None? || value.value == 0 ==> r == fallback
  {
    if value.Some? && value.value != 0 then value.value else fallback
  }

  /** The `accepts` object of a 402 body, as the client reads it. */
  datatype Offer = Offer(price: string, currency: string, payTo: string)

  /** An HTTP response: its status, the `accepts` of its JSON body if it has one,
      and everything else it carries. */
  datatype Response = Response(status: int, accepts: Option<Offer>, content: string)

  /** One entry of `paymentHistory` (its timestamp is not modelled). */
  datatype PaymentRecord = PaymentRecord(url: string, price: int, currency: string, txId: string, recipient: string)

  /** Why `fetch` throws. */
  datatype FetchError =
    | NoRequirements
    | OverRequestLimit(price: int, limit: int)
    | BudgetExhausted(spent: int, limit: int, price: int)
    | UnpayablePrice
    | PaymentFailed(message: string)
    | RetryFailed(message: string)

  /** The message of the thrown error (the agent name prefixes the client's own). */
  function ErrorMessage(agentName: string, e: FetchError): string {
    match e
    case NoRequirements => "[" + agentName + "] 402 received but no payment requirements in response"
    case OverRequestLimit(price, limit) =>
      "[" + agentName + "] Price " + IntToString(price) + " exceeds per-request limit " + IntToString(limit)
    case BudgetExhausted(spent, limit, price) =>
      "[" + agentName + "] Budget exhausted: spent " + IntToString(spent) + "/" + IntToString(limit)
        + ", need " + IntToString(price) + " more"
    case UnpayablePrice => "The number NaN cannot be converted to a BigInt because it is not an integer"
    case PaymentFailed(message) => message
    case RetryFailed(message) => message
  }

  /** The two budget guards on a parsed price, in order. A NaN price (`None`)
      passes both comparisons, as every comparison with NaN is false. */
  function Guard(price: Option<int>, maxPaymentPerRequest: int, budgetLimit: int, spent: int): (e: Option<FetchError>)
    ensures e.None? <==> price.None? || (price.value <= maxPaymentPerRequest && spent + price.value <= budgetLimit)
    ensures e.Some? ==> e.value.OverRequestLimit? || e.value.BudgetExhausted?
    ensures e.Some? && e.value.BudgetExhausted? ==> price.value <= maxPaymentPerRequest
  {
    if price.None? then None
    else if price.value > maxPaymentPerRequest then Some(OverRequestLimit(price.value, maxPaymentPerRequest))
    else if spent + price.value > budgetLimit then Some(BudgetExhausted(spent, budgetLimit, price.value))
    else None
  }

  /** What the history says was spent. */
  function Spent(history: seq<PaymentRecord>): int {
    if history == [] then 0 else Spent(history[..|history| - 1]) + history[|history| - 1].price
  }

  lemma SpentAppend(history: seq<PaymentRecord>, r: PaymentRecord)
    ensures Spent(history + [r]) == Spent(history) + r.price
  {
    assert (history + [r])[..|history|] == history;
  }

  /** A payment let through by the guards keeps the spending within budget. */
  lemma GuardKeepsBudget(price: int, maxPaymentPerRequest: int, budgetLimit: int, spent: int)
    requires Guard(Some(price), maxPaymentPerRequest, budgetLimit, spent).None?
    ensures price <= maxPaymentPerRequest && spent + price <= budgetLimit
  {
  }

  /** On a 402 from the payment gate, the client's guards weigh exactly the price
      the gate charges: the advertised price is never NaN, and it passes the
      guards exactly when that price is within both limits. */
  lemma ClientReadsGatePrice(config: Gate.GateConfig, req: Gate.Request, pricing: Pricing.Pricing,
                             maxPaymentPerRequest: int, budgetLimit: int, spent: int)
    ensures var price := Gate.PriceFor(config, req, pricing);
      ParseInt(Gate.AcceptsFor(config, req, pricing).price).Some?
      && (Guard(ParseInt(Gate.AcceptsFor(config, req, pricing).price), maxPaymentPerRequest, budgetLimit, spent).None?
          <==> price <= maxPaymentPerRequest && spent + price <= budgetLimit)
  {
    Gate.AdvertisedPriceReadsBack(config, req, pricing);
  }

  /** Whether `fetch` pays: the response is a 402 with requirements, its price
      is a number within both limits, and `makePayment` returns a transaction
      id. Exactly then the spending and the history change, whatever the
      retry does. */
  predicate Pays(first: Response, payment: PayOutcome, maxPaymentPerRequest: int, budgetLimit: int, spent: int) {
    first.status == 402 && first.accepts.Some? && ParseInt(first.accepts.value.price).Some?
    && Guard(ParseInt(first.accepts.value.price), maxPaymentPerRequest, budgetLimit, spent).None?
    && payment.Paid?
  }

  /** What `getSummary` returns. */
  datatype Summary = Summary(agent: string, totalSpent: int, budgetRemaining: int, budgetLimit: int,
                             transactions: nat, history: seq<PaymentRecord>)

  class AgentPaymentClient {
    const agentName: string
    const networkName: string
    /** Whether payments go to mainnet (`network === 'mainnet'`) rather than testnet. */
    const mainnet: bool
    const maxPaymentPerRequest: int
    const budgetLimit: int
    var spent: int
    var paymentHistory: seq<PaymentRecord>

    /** `spent` is what the history records, and once anything is paid it is
        within the budget. */
    ghost predicate Valid()
      reads this
    {
      spent == Spent(paymentHistory) && (paymentHistory == [] || spent <= budgetLimit)
    }

    constructor(config: ClientConfig)
      ensures Valid()
      ensures agentName == config.agentName
      ensures mainnet <==> config.network == Some("mainnet")
      ensures networkName == if config.network.Some? && config.network.value != "" then config.network.value else "testnet"
      ensures maxPaymentPerRequest == OrDefault(config.maxPaymentPerRequest, DEFAULT_MAX_PER_REQUEST)
      ensures budgetLimit == OrDefault(config.budgetLimit, DEFAULT_BUDGET_LIMIT)
      ensures spent == 0 && paymentHistory == []
    {
      agentName := config.agentName;
      mainnet := config.network == Some("mainnet");
      networkName := if config.network.Some? && config.network.value != "" then config.network.value else "testnet";
      maxPaymentPerRequest := OrDefault(config.maxPaymentPerRequest, DEFAULT_MAX_PER_REQUEST);
      budgetLimit := OrDefault(config.budgetLimit, DEFAULT_BUDGET_LIMIT);
      spent := 0;
      paymentHistory := [];
    }

    /** `fetch(url)`: a response other than 402 is returned as it is; a 402
        without requirements, or with a price over either limit, throws before
        paying; otherwise `makePayment(payTo, price)` is called (a NaN price
        makes it throw before anything is sent), and once it has returned a
        transaction id the spending and the history are updated and the request
        is retried with that id as proof. The retry may itself reject, and then
        the payment stays recorded. `calls` are the payments attempted. */
    method Fetch(url: string, first: Response, payment: PayOutcome, retry: string -> Result<Response, string>)
      returns (r: Result<Response, FetchError>, calls: seq<PaymentCall>)
      requires Valid()
      modifies this
      ensures Valid()
      ensures first.status != 402 ==> r == Success(first) && calls == []
      ensures first.status == 402 && first.accepts.None? ==> r == Failure(NoRequirements) && calls == []
      ensures first.status == 402 && first.accepts.Some? ==>
        var price := ParseInt(first.accepts.value.price);
        var guard := Guard(price, maxPaymentPerRequest, budgetLimit, old(spent));
        (guard.Some? ==> r == Failure(guard.value) && calls == [])
        && (guard.None? && price.None? ==> r == Failure(UnpayablePrice) && calls == [])
        && (guard.None? && price.Some? ==>
              calls == [PaymentCall(first.accepts.value.payTo, price.value)]
              && (payment.Threw? ==> r == Failure(PaymentFailed(payment.message)))
              && (payment.Paid? && retry(payment.txId).Success? ==> r == Success(retry(payment.txId).value))
              && (payment.Paid? && retry(payment.txId).Failure? ==> r == Failure(RetryFailed(retry(payment.txId).error))))
      ensures Pays(first, payment, maxPaymentPerRequest, budgetLimit, old(spent)) ==>
        var price := ParseInt(first.accepts.value.price).value;
        spent == old(spent) + price
        && paymentHistory == old(paymentHistory) + [PaymentRecord(url, price, first.accepts.value.currency,
                                                                  payment.txId, first.accepts.value.payTo)]
      ensures !Pays(first, payment, maxPaymentPerRequest, budgetLimit, old(spent)) ==>
        spent == old(spent) && paymentHistory == old(paymentHistory)
      ensures r.Success? && first.status == 402 ==> Pays(first, payment, maxPaymentPerRequest, budgetLimit, old(spent))
    {
      calls := [];
      if first.status != 402 {
        return Success(first), calls;
      }
      if first.accepts.None? {
        return Failure(NoRequirements), calls;
      }
      var accepts := first.accepts.value;
      var price := ParseInt(accepts.price);
      if price.Some? && price.value > maxPaymentPerRequest {
        return Failure(OverRequestLimit(price.value, maxPaymentPerRequest)), calls;
      }
      if price.Some? && spent + price.value > budgetLimit {
        return Failure(BudgetExhausted(spent, budgetLimit, price.value)), calls;
      }
      if price.None? {
        return Failure(UnpayablePrice), calls;
      }
      calls := [PaymentCall(accepts.payTo, price.value)];
      if payment.Threw? {
        return Failure(PaymentFailed(payment.message)), calls;
      }
      var txId := payment.txId;
      var record := PaymentRecord(url, price.value, accepts.currency, txId, accepts.payTo);
      SpentAppend(paymentHistory, record);
      spent := spent + price.value;
      paymentHistory := paymentHistory + [record];
      var paid := retry(txId);
      if paid.Failure? {
        return Failure(RetryFailed(paid.error)), calls;
      }
      r := Success(paid.value);
    }

    /** `getSummary()`: the spending, what is left of the budget and the history.
        Under a non-negative budget nothing is ever overspent. */
    function GetSummary(): (s: Summary)
      reads this
      requires Valid()
      ensures s.totalSpent == Spent(s.history) && s.transactions == |s.history|
      ensures s.budgetRemaining == s.budgetLimit - s.totalSpent
      ensures s.budgetLimit >= 0 ==> s.budgetRemaining >= 0
      ensures s.agent == agentName && s.budgetLimit == budgetLimit && s.history == paymentHistory
    {
      Summary(agentName, spent, budgetLimit - spent, budgetLimit, |paymentHistory|, paymentHistory)
    }

    /** `resetBudget()`: forgets the spending and the history; the limits, being
        constants, stay as they were. */
    method ResetBudget()
      modifies this
      ensures Valid()
      ensures spent == 0 && paymentHistory == []
    {
      spent := 0;
      paymentHistory := [];
    }
  }
}
