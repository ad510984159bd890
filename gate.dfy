/** The x402 payment gate in front of the paid API routes, after the 402 Payment
    Required status of section 15.5.3 of RFC 9110: a request to a paid route
    without a payment proof is answered 402 with what to pay and to whom; a proof
    is checked with the facilitator, and only a verified payment lets the
    request through and is logged. The facilitator's answer is an oracle. */
module Gate {
  import opened Wrappers
  import opened Decimal
  import opened Pricing

  // ---------------------------------------------------------------- route patterns

  /** One element of a compiled route pattern: a literal character, or a
      parameter standing for one non-empty path segment (`[^/]+`). */
  datatype Piece = Lit(c: char) | Param

  predicate NoSlash(s: string) {
    forall i :: 0 <= i < |s| ==> s[i] != '/'
  }

  /** Length of the run of characters other than '/' that starts `s`. */
  function SegmentRun(s: string): (k: nat)
    ensures k <= |s| && NoSlash(s[..k])
    ensures k < |s| ==> s[k] == '/'
  {
    if s == [] || s[0] == '/' then 0 else 1 + SegmentRun(s[1..])
  }

  /** `pattern.replace(/:[^/]+/g, '[^/]+')`: a ':' followed by at least one
      character other than '/' becomes a parameter, together with all those
      characters; every other character stands for itself. */
  function Compile(pattern: string): seq<Piece>
    decreases |pattern|
  {
    if pattern == [] then []
    else if pattern[0] == ':' && SegmentRun(pattern[1..]) > 0 then
      [Param] + Compile(pattern[1 + SegmentRun(pattern[1..])..])
    else [Lit(pattern[0])] + Compile(pattern[1..])
  }

  /** The anchored regular expression `^…$` built from compiled pieces accepts `s`. */
  predicate Matches(pieces: seq<Piece>, s: string)
    decreases |pieces|
  {
    if pieces == [] then s == []
    else match pieces[0]
      case Lit(c) => |s| > 0 && s[0] == c && Matches(pieces[1..], s[1..])
      case Param => exists k :: 1 <= k <= |s| && NoSlash(s[..k]) && Matches(pieces[1..], s[k..])
  }

  /** A pattern without parameters matches exactly itself. */
  lemma {:induction false} LiteralPatternMatchesItselfOnly(pattern: string, s: string)
    requires ':' !in pattern
    ensures Matches(Compile(pattern), s) <==> s == pattern
  {
    if pattern != [] {
      assert pattern[0] != ':';
      assert ':' !in pattern[1..] by {
        forall i | 0 <= i < |pattern[1..]| ensures pattern[1..][i] != ':' {
          assert pattern[1..][i] == pattern[i + 1];
        }
      }
      assert Compile(pattern) == [Lit(pattern[0])] + Compile(pattern[1..]);
      if |s| > 0 {
        LiteralPatternMatchesItselfOnly(pattern[1..], s[1..]);
        if s[0] == pattern[0] && s[1..] == pattern[1..] {
          assert s == [s[0]] + s[1..];
          assert pattern == [pattern[0]] + pattern[1..];
        }
      }
    }
  }

  /** A parameter after a literal prefix stands for exactly one non-empty path
      segment: `prefix:name` matches the strings that are `prefix` followed by
      a non-empty run of characters other than '/'. */
  lemma {:induction false} ParameterMatchesOneSegment(prefix: string, name: string, s: string)
    requires ':' !in prefix
    requires |name| > 0 && NoSlash(name)
    ensures Matches(Compile(prefix + [':'] + name), s)
        <==> |s| > |prefix| && s[..|prefix|] == prefix && NoSlash(s[|prefix|..])
  {
    var pattern := prefix + [':'] + name;
    if prefix == [] {
      assert pattern == [':'] + name;
      assert pattern[1..] == name;
      assert SegmentRun(name) == |name|;
      assert pattern[1 + |name|..] == [];
      assert Compile(pattern) == [Param];
      if |s| > 0 && NoSlash(s) {
        assert s[..|s|] == s && s[|s|..] == [];
      }
      if Matches([Param], s) {
        var k :| 1 <= k <= |s| && NoSlash(s[..k]) && Matches([Param][1..], s[k..]);
        assert s[k..] == [];
        assert s[..k] == s;
      }
    } else {
      assert prefix[0] != ':';
      var rest := prefix[1..];
      assert ':' !in rest by {
        forall i | 0 <= i < |rest| ensures rest[i] != ':' {
          assert rest[i] == prefix[i + 1];
        }
      }
      assert pattern[0] == prefix[0] && pattern[1..] == rest + [':'] + name;
      assert Compile(pattern) == [Lit(prefix[0])] + Compile(rest + [':'] + name);
      if |s| > 0 {
        ParameterMatchesOneSegment(rest, name, s[1..]);
        if |s| > |prefix| {
          assert s[1..][..|rest|] == s[1..|prefix|];
          assert s[1..][|rest|..] == s[|prefix|..];
          assert s[..|prefix|] == [s[0]] + s[1..|prefix|];
          assert prefix == [prefix[0]] + rest;
        }
      }
    }
  }

  // ---------------------------------------------------------------- price lookup

  /** Where `key` sits among the table's patterns (|table| when it is no key):
      the object lookup `PRICING[routeKey]`. */
  function KeyIndex(table: seq<Route>, key: string): (i: nat)
    ensures i <= |table|
    ensures forall k :: 0 <= k < i ==> table[k].pattern != key
    ensures i < |table| ==> table[i].pattern == key
  {
    if table == [] then 0
    else if table[0].pattern == key then 0
    else 1 + KeyIndex(table[1..], key)
  }

  /** The first entry, in insertion order, whose pattern matches `key`
      (|table| when none does). */
  function MatchIndex(table: seq<Route>, key: string): (i: nat)
    ensures i <= |table|
    ensures forall k :: 0 <= k < i ==> !Matches(Compile(table[k].pattern), key)
    ensures i < |table| ==> Matches(Compile(table[i].pattern), key)
  {
    if table == [] then 0
    else if Matches(Compile(table[0].pattern), key) then 0
    else 1 + MatchIndex(table[1..], key)
  }

  /** What `findPricing` finds: the tariff stored under the exact key when the key
      is present (a free route's null included), else the tariff of the first
      matching pattern, else nothing. */
  function Lookup(table: seq<Route>, key: string): (r: Option<Pricing>)
    ensures r.Some? ==> exists i :: 0 <= i < |table| && table[i].tariff == r
                                    && (table[i].pattern == key || Matches(Compile(table[i].pattern), key))
  {
    var exact := KeyIndex(table, key);
    if exact < |table| then table[exact].tariff
    else
      var matched := MatchIndex(table, key);
      if matched < |table| then table[matched].tariff else None
  }

  /** Whatever the lookup returns is the tariff of one of the table's entries. */
  lemma LookupFromTable(table: seq<Route>, key: string)
    ensures Lookup(table, key).Some? ==> exists i :: 0 <= i < |table| && table[i].tariff == Lookup(table, key)
  {
    var exact := KeyIndex(table, key);
    if exact == |table| {
      var matched := MatchIndex(table, key);
      if matched < |table| {
        assert table[matched].tariff == Lookup(table, key);
      }
    } else {
      assert table[exact].tariff == Lookup(table, key);
    }
  }

  /** An exact key decides the lookup even when an earlier pattern matches it too,
      and a free route's null stops the search: a listed free route is free. */
  lemma ExactKeyWins(table: seq<Route>, i: nat, key: string)
    requires i < |table| && table[i].pattern == key
    requires forall k :: 0 <= k < i ==> table[k].pattern != key
    ensures Lookup(table, key) == table[i].tariff
  {
  }

  /** A key that is no pattern and matches none has no tariff. */
  lemma UnlistedRouteIsFree(table: seq<Route>, key: string)
    requires forall k :: 0 <= k < |table| ==> table[k].pattern != key && !Matches(Compile(table[k].pattern), key)
    ensures Lookup(table, key) == None
  {
  }

  /** The three paid routes find their own tariffs. */
  lemma PaidRoutesFindTheirTariffs()
    ensures Lookup(PRICING, CHAT_ROUTE) == Some(CHAT_TARIFF)
    ensures Lookup(PRICING, ARENA_ROUTE) == Some(ARENA_TARIFF)
    ensures Lookup(PRICING, "POST /api/evaluate") == Some(EVALUATE_TARIFF)
  {
    ExactKeyWins(PRICING, 3, CHAT_ROUTE);
    ExactKeyWins(PRICING, 4, ARENA_ROUTE);
    ExactKeyWins(PRICING, 5, "POST /api/evaluate");
  }

  /** A pattern starting with a character other than ':' only matches keys
      starting with that character. */
  lemma FirstCharacterMatters(pattern: string, key: string)
    requires |pattern| > 0 && pattern[0] != ':'
    requires Matches(Compile(pattern), key)
    ensures |key| > 0 && key[0] == pattern[0]
  {
    assert Compile(pattern) == [Lit(pattern[0])] + Compile(pattern[1..]);
  }

  /** In a table whose paid patterns all start with 'P', a key starting with 'G'
      finds no tariff. */
  lemma {:induction false} GetKeysFindNoTariff(table: seq<Route>, key: string)
    requires forall k :: 0 <= k < |table| && table[k].tariff.Some? ==>
      |table[k].pattern| > 0 && table[k].pattern[0] == 'P'
    requires |key| > 0 && key[0] == 'G'
    ensures Lookup(table, key) == None
  {
    var matched := MatchIndex(table, key);
    if matched < |table| && table[matched].tariff.Some? {
      FirstCharacterMatters(table[matched].pattern, key);
    }
  }

  /** Every paid route is a POST, so every GET request passes the gate free: the
      free routes listed first, and any route the table does not know. */
  lemma GetRoutesAreFree(key: string)
    requires |key| > 0 && key[0] == 'G'
    ensures Lookup(PRICING, key) == None
  {
    assert forall k :: 0 <= k < |PRICING| && PRICING[k].tariff.Some? ==>
      |PRICING[k].pattern| > 0 && PRICING[k].pattern[0] == 'P';
    GetKeysFindNoTariff(PRICING, key);
  }

  /** `findPricing(routeKey)`: the exact key first, then the patterns in insertion
      order, returning at the first that matches. */
  method FindPricing(table: seq<Route>, routeKey: string) returns (r: Option<Pricing>)
    ensures r == Lookup(table, routeKey)
  {
    var exact := KeyIndex(table, routeKey);
    if exact < |table| {
      return table[exact].tariff;
    }
    var i := 0;
    while i < |table|
      invariant 0 <= i <= |table|
      invariant forall k :: 0 <= k < i ==> !Matches(Compile(table[k].pattern), routeKey)
    {
      if Matches(Compile(table[i].pattern), routeKey) {
        assert MatchIndex(table, routeKey) == i;
        return table[i].tariff;
      }
      i := i + 1;
    }
    return None;
  }

  // ---------------------------------------------------------------- dynamic price

  const CHAT_ROUTE: string := "POST /api/chat"
  const ARENA_ROUTE: string := "POST /api/arena"

  /** The parts of a request body the price depends on: the persona named for a
      chat ("" or absent is falsy) and the length of the arena's villain list. */
  datatype Body = Body(villainPersona: Option<string>, villains: Option<nat>)

  /** `pricing.caliberMultiplier[caliber] || 1`. */
  function Multiplier(multipliers: map<string, int>, caliber: string): int {
    if caliber in multipliers && multipliers[caliber] != 0 then multipliers[caliber] else 1
  }

  /** `calculatePrice(pricing, routeKey, body, getVillainCaliber)`: the base
      price, replaced for a chat naming a persona by base × the persona's caliber
      multiplier, and for an arena listing villains by base plus `perVillain` for
      every villain beyond two. */
  function CalculatePrice(pricing: Pricing, routeKey: string, body: Body, getVillainCaliber: string -> string): (price: int)
    ensures routeKey != CHAT_ROUTE && routeKey != ARENA_ROUTE ==> price == pricing.base
  {
    var price := pricing.base;
    var price :=
      if routeKey == CHAT_ROUTE && body.villainPersona.Some? && body.villainPersona.value != ""
         && pricing.caliberMultiplier.Some?
      then pricing.base * Multiplier(pricing.caliberMultiplier.value, getVillainCaliber(body.villainPersona.value))
      else price;
    var price :=
      if routeKey == ARENA_ROUTE && body.villains.Some? && pricing.perVillain.Some? && pricing.perVillain.value != 0
      then pricing.base + (if body.villains.value > 2 then body.villains.value - 2 else 0) * pricing.perVillain.value
      else price;
    price
  }

  /** The chat price the gate charges for a persona is the debate server's
      per-caliber price: 100, 500 or 1000, and 100 for an unknown caliber. */
  lemma GateChatPriceIsChatPrice(persona: string, villains: Option<nat>, getVillainCaliber: string -> string)
    requires persona != ""
    ensures CalculatePrice(CHAT_TARIFF, CHAT_ROUTE, Body(Some(persona), villains), getVillainCaliber)
         == ChatPrice(getVillainCaliber(persona))
  {
  }

  /** The arena price: 2000 for up to two villains, 500 more for each one beyond. */
  lemma ArenaPrice(persona: Option<string>, n: nat, getVillainCaliber: string -> string)
    ensures CalculatePrice(ARENA_TARIFF, ARENA_ROUTE, Body(persona, Some(n)), getVillainCaliber)
         == if n <= 2 then 2000 else 2000 + 500 * (n - 2)
  {
  }

  /** A tariff whose dynamic parts never lower the price. */
  predicate Sound(pricing: Pricing) {
    pricing.base > 0
    && (pricing.caliberMultiplier.Some? ==>
          forall c :: c in pricing.caliberMultiplier.value ==> pricing.caliberMultiplier.value[c] >= 0)
    && (pricing.perVillain.Some? ==> pricing.perVillain.value >= 0)
  }

  /** Every paid route of the table has a sound tariff. */
  lemma PricingIsSound()
    ensures forall i :: 0 <= i < |PRICING| && PRICING[i].tariff.Some? ==> Sound(PRICING[i].tariff.value)
  {
    assert Sound(CHAT_TARIFF) && Sound(ARENA_TARIFF) && Sound(EVALUATE_TARIFF);
  }

  /** Under a sound tariff the dynamic price never drops below the base price. */
  lemma PriceAtLeastBase(pricing: Pricing, routeKey: string, body: Body, getVillainCaliber: string -> string)
    requires Sound(pricing)
    ensures CalculatePrice(pricing, routeKey, body, getVillainCaliber) >= pricing.base
  {
    if routeKey == CHAT_ROUTE && body.villainPersona.Some? && body.villainPersona.value != ""
       && pricing.caliberMultiplier.Some? {
      var m := Multiplier(pricing.caliberMultiplier.value, getVillainCaliber(body.villainPersona.value));
      assert m >= 1;
      assert pricing.base * m >= pricing.base * 1;
    }
  }

  // ---------------------------------------------------------------- the gate

  /** The middleware's options; an option left `undefined` is `None`. */
  datatype GateConfig = GateConfig(
    payToAddress: string,
    facilitatorUrl: string,
    network: Option<string>,
    getVillainCaliber: Option<string -> string>)

  const DEFAULT_NETWORK: string := "stacks:testnet"
  const MAX_TIMEOUT_SECONDS: nat := 300

  function Network(config: GateConfig): string {
    config.network.GetOr(DEFAULT_NETWORK)
  }

  /** `getVillainCaliber`, which defaults to calling every villain low caliber. */
  function CaliberOf(config: GateConfig): string -> string {
    config.getVillainCaliber.GetOr(_ => "low")
  }

  /** What the gate reads of a request: HTTP method, path, body and the `X-Payment`
      header (absent, or "", when the request carries no proof). */
  datatype Request = Request(verb: string, path: string, body: Body, paymentHeader: Option<string>)

  /** `${req.method} ${req.path}`: the method, one space, the path. */
  function RouteKey(req: Request): (k: string)
    ensures |k| == |req.verb| + 1 + |req.path|
    ensures k[..|req.verb|] == req.verb && k[|req.verb|] == ' ' && k[|req.verb| + 1..] == req.path
  {
    req.verb + " " + req.path
  }

  function PaymentProof(req: Request): Option<string> {
    if req.paymentHeader.Some? && req.paymentHeader.value != "" then req.paymentHeader else None
  }

  /** The request the gate sends to the facilitator's `/verify` endpoint. */
  datatype VerifyRequest = VerifyRequest(url: string, paymentProof: string, expectedAmount: string, expectedRecipient: string)

  /** The JSON verdict of the facilitator. */
  datatype Verdict = Verdict(success: bool, reason: string, txId: string, payer: string)

  /** What happens to a verify request: the fetch throws, or the facilitator
      answers with an HTTP status and a body that parses to a verdict or throws. */
  datatype FacilitatorReply =
    | Unreachable(message: string)
    | Answered(status: int, statusText: string, json: Result<Verdict, string>)

  /** `verifyPayment`: a status outside 200–299 is an unsuccessful verdict with the
      status as its reason; otherwise the parsed verdict. `Failure` is a throw. */
  function VerifyPayment(reply: FacilitatorReply): (r: Result<Verdict, string>)
    ensures reply.Answered? && !(200 <= reply.status <= 299) ==>
      r.Success? && !r.value.success
      && r.value.reason == "Facilitator returned " + IntToString(reply.status) + ": " + reply.statusText
    ensures reply.Answered? && 200 <= reply.status <= 299 ==> r == reply.json
    ensures reply.Unreachable? ==> r == Failure(reply.message)
  {
    match reply
    case Unreachable(message) => Failure(message)
    case Answered(status, statusText, json) =>
      if !(200 <= status <= 299) then
        Success(Verdict(false, "Facilitator returned " + IntToString(status) + ": " + statusText, "", ""))
      else json
  }

  /** The payment requirements a 402 response advertises. */
  datatype Accepts = Accepts(scheme: string, network: string, price: string, currency: string, payTo: string)

  /** `req.payment`, set for the downstream handler of a verified request. */
  datatype Payment = Payment(amount: int, currency: string, txId: string, payer: string)

  /** One entry of `paymentLog` (its timestamp is not modelled). */
  datatype LogEntry = LogEntry(endpoint: string, amount: int, currency: string, txId: string, payer: string)

  /** How the gate ends a request: `next()` with or without a verified payment,
      402 with the requirements, 402 with the facilitator's reason, or 503. */
  datatype GateOutcome =
    | Proceed(payment: Option<Payment>)
    | PaymentRequired(accepts: Accepts, description: string, maxTimeoutSeconds: nat, facilitator: string)
    | VerificationFailed(reason: string, accepts: Accepts)
    | ServiceUnavailable(facilitator: string)

  /** The HTTP status the gate itself answers with; none when it calls `next()`. */
  function StatusCode(o: GateOutcome): Option<int> {
    match o
    case Proceed(_) => None
    case PaymentRequired(_, _, _, _) => Some(402)
    case VerificationFailed(_, _) => Some(402)
    case ServiceUnavailable(_) => Some(503)
  }

  /** The price a paid route charges for this request. */
  function PriceFor(config: GateConfig, req: Request, pricing: Pricing): int {
    CalculatePrice(pricing, RouteKey(req), req.body, CaliberOf(config))
  }

  /** The requirements advertised for a paid route. */
  function AcceptsFor(config: GateConfig, req: Request, pricing: Pricing): Accepts {
    Accepts("exact", Network(config), IntToString(PriceFor(config, req, pricing)), pricing.currency, config.payToAddress)
  }

  /** What the facilitator is asked for a request carrying a proof. */
  function VerifyRequestFor(config: GateConfig, req: Request, pricing: Pricing): VerifyRequest
    requires PaymentProof(req).Some?
  {
    VerifyRequest(config.facilitatorUrl, PaymentProof(req).value, IntToString(PriceFor(config, req, pricing)),
                  config.payToAddress)
  }

  /** `x402Gate(req, res, next)`, as a decision. */
  function Decide(config: GateConfig, req: Request, facilitator: VerifyRequest -> FacilitatorReply): (o: GateOutcome)
    ensures Lookup(PRICING, RouteKey(req)).None? <==> o == Proceed(None)
    ensures o.PaymentRequired? <==> Lookup(PRICING, RouteKey(req)).Some? && PaymentProof(req).None?
    ensures o.PaymentRequired? ==>
      o.accepts == AcceptsFor(config, req, Lookup(PRICING, RouteKey(req)).value)
      && o.maxTimeoutSeconds == MAX_TIMEOUT_SECONDS && o.facilitator == config.facilitatorUrl
    ensures o.ServiceUnavailable? <==>
      Lookup(PRICING, RouteKey(req)).Some? && PaymentProof(req).Some?
      && VerifyPayment(facilitator(VerifyRequestFor(config, req, Lookup(PRICING, RouteKey(req)).value))).Failure?
    ensures o.VerificationFailed? ==>
      var pricing := Lookup(PRICING, RouteKey(req)).value;
      var verdict := VerifyPayment(facilitator(VerifyRequestFor(config, req, pricing)));
      o.accepts == AcceptsFor(config, req, pricing)
      && verdict.Success? && !verdict.value.success && o.reason == verdict.value.reason
    ensures o.Proceed? && o.payment.Some? ==>
      var verdict := VerifyPayment(facilitator(VerifyRequestFor(config, req, Lookup(PRICING, RouteKey(req)).value)));
      verdict.Success? && verdict.value.success
      && o.payment.value.txId == verdict.value.txId && o.payment.value.payer == verdict.value.payer
    ensures o.Proceed? && o.payment.Some? ==>
      Lookup(PRICING, RouteKey(req)).Some? && PaymentProof(req).Some?
      && o.payment.value.amount == PriceFor(config, req, Lookup(PRICING, RouteKey(req)).value)
      && o.payment.value.currency == Lookup(PRICING, RouteKey(req)).value.currency
  {
    match Lookup(PRICING, RouteKey(req))
    case None => Proceed(None)
    case Some(pricing) =>
      var accepts := AcceptsFor(config, req, pricing);
      if PaymentProof(req).None? then
        PaymentRequired(accepts, "Syndi API — " + RouteKey(req), MAX_TIMEOUT_SECONDS, config.facilitatorUrl)
      else
        match VerifyPayment(facilitator(VerifyRequestFor(config, req, pricing)))
        case Failure(_) => ServiceUnavailable(config.facilitatorUrl)
        case Success(v) =>
          if !v.success then VerificationFailed(v.reason, accepts)
          else Proceed(Some(Payment(PriceFor(config, req, pricing), pricing.currency, v.txId, v.payer)))
  }

  /** Without a proof the facilitator is never asked: any two facilitators give
      the same outcome. */
  lemma NoProofNoFacilitator(config: GateConfig, req: Request, f: VerifyRequest -> FacilitatorReply,
                             g: VerifyRequest -> FacilitatorReply)
    requires PaymentProof(req).None?
    ensures Decide(config, req, f) == Decide(config, req, g)
  {
  }

  /** A verified payment is accepted exactly when the facilitator answers OK with
      a successful verdict; a non-OK status is a 402 with a reason, never a 503. */
  lemma VerifiedExactly(config: GateConfig, req: Request, facilitator: VerifyRequest -> FacilitatorReply)
    requires Lookup(PRICING, RouteKey(req)).Some? && PaymentProof(req).Some?
    ensures var reply := facilitator(VerifyRequestFor(config, req, Lookup(PRICING, RouteKey(req)).value));
      (Decide(config, req, facilitator).Proceed? <==>
         reply.Answered? && 200 <= reply.status <= 299 && reply.json.Success? && reply.json.value.success)
      && (reply.Answered? && !(200 <= reply.status <= 299) ==> Decide(config, req, facilitator).VerificationFailed?)
  {
  }

  /** The advertised price reads back, with `parseInt`, as the price charged. */
  lemma AdvertisedPriceReadsBack(config: GateConfig, req: Request, pricing: Pricing)
    ensures ParseInt(AcceptsFor(config, req, pricing).price) == Some(PriceFor(config, req, pricing))
  {
    ParseIntRoundTrip(PriceFor(config, req, pricing));
  }

  /** A log entry of a payment the gate accepted: for a paid route, at least that
      route's base price. */
  predicate Logged(e: LogEntry) {
    Lookup(PRICING, e.endpoint).Some? && e.amount >= Lookup(PRICING, e.endpoint).value.base > 0
    && e.currency == Lookup(PRICING, e.endpoint).value.currency
  }

  /** The middleware instance: its options and the in-memory `paymentLog`. */
  class PaymentGate {
    const config: GateConfig
    var paymentLog: seq<LogEntry>

    ghost predicate Valid()
      reads this
    {
      forall k :: 0 <= k < |paymentLog| ==> Logged(paymentLog[k])
    }

    /** `createX402Middleware(config)`. */
    constructor(config: GateConfig)
      ensures this.config == config && paymentLog == [] && Valid()
    {
      this.config := config;
      paymentLog := [];
    }

    /** One request through the gate: the outcome of `Decide`, and one log entry
        exactly when a verified payment lets the request through. */
    method Handle(req: Request, facilitator: VerifyRequest -> FacilitatorReply) returns (outcome: GateOutcome)
      requires Valid()
      modifies this
      ensures Valid()
      ensures outcome == Decide(config, req, facilitator)
      ensures outcome.Proceed? && outcome.payment.Some? ==>
        paymentLog == old(paymentLog) + [LogEntry(RouteKey(req), outcome.payment.value.amount,
                                                  outcome.payment.value.currency, outcome.payment.value.txId,
                                                  outcome.payment.value.payer)]
      ensures !(outcome.Proceed? && outcome.payment.Some?) ==> paymentLog == old(paymentLog)
    {
      var routeKey := RouteKey(req);
      var pricing := FindPricing(PRICING, routeKey);
      if pricing.None? {
        return Proceed(None);
      }
      var price := CalculatePrice(pricing.value, routeKey, req.body, CaliberOf(config));
      var accepts := Accepts("exact", Network(config), IntToString(price), pricing.value.currency, config.payToAddress);
      var proof := PaymentProof(req);
      if proof.None? {
        return PaymentRequired(accepts, "Syndi API — " + routeKey, MAX_TIMEOUT_SECONDS, config.facilitatorUrl);
      }
      var verification := VerifyPayment(facilitator(VerifyRequest(config.facilitatorUrl, proof.value,
                                                                   IntToString(price), config.payToAddress)));
      if verification.Failure? {
        return ServiceUnavailable(config.facilitatorUrl);
      }
      if !verification.value.success {
        return VerificationFailed(verification.value.reason, accepts);
      }
      outcome := Proceed(Some(Payment(price, pricing.value.currency, verification.value.txId, verification.value.payer)));
      LookupFromTable(PRICING, routeKey);
      PricingIsSound();
      PriceAtLeastBase(pricing.value, routeKey, req.body, CaliberOf(config));
      paymentLog := paymentLog + [LogEntry(routeKey, price, pricing.value.currency, verification.value.txId,
                                           verification.value.payer)];
    }
  }
}
