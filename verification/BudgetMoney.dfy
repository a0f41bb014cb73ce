/** From exact prices to integer money, and from callers to budget scopes.

    Prices and dollar amounts are exact decimals in the gateway and reals here. */
module BudgetMoney {
  import opened Common

  function Floor(x: real): int {
    x.Floor
  }

  function Ceiling(x: real): int {
    -(-x).Floor
  }

  function ChargeToMicros(usd: real): int {
    Ceiling(usd * 1_000_000.0)
  }

  function BudgetToMicros(usd: real): int {
    Floor(usd * 1_000_000.0)
  }

  datatype Price = Price(inputPerMillion: real, outputPerMillion: real)

  /** The price table always has a fallback entry. */
  function PriceFor(prices: map<string, Price>, model: string): Price
    requires "*" in prices || "default" in prices
  {
    if model in prices then prices[model] else if "*" in prices then prices["*"] else prices["default"]
  }

  /** Exact cost in dollars. */
  function ExactCost(prices: map<string, Price>, model: string, inputTokens: int, outputTokens: int): real
    requires "*" in prices || "default" in prices
  {
    var p := PriceFor(prices, model);
    (Max(0, inputTokens) as real * p.inputPerMillion + Max(0, outputTokens) as real * p.outputPerMillion)
    / 1_000_000.0
  }

  /** Prices are per million tokens, so tokens times price already is micro-dollars. */
  function EstimateCostMicros(prices: map<string, Price>, model: string, inputTokens: int, outputTokens: int): int
    requires "*" in prices || "default" in prices
  {
    var p := PriceFor(prices, model);
    Ceiling(Max(0, inputTokens) as real * p.inputPerMillion + Max(0, outputTokens) as real * p.outputPerMillion)
  }

  lemma EstimateIsCharge(prices: map<string, Price>, model: string, inputTokens: int, outputTokens: int)
    requires "*" in prices || "default" in prices
    ensures EstimateCostMicros(prices, model, inputTokens, outputTokens)
         == ChargeToMicros(ExactCost(prices, model, inputTokens, outputTokens))
  {
    var p := PriceFor(prices, model);
    var micros := Max(0, inputTokens) as real * p.inputPerMillion + Max(0, outputTokens) as real * p.outputPerMillion;
    assert (micros / 1_000_000.0) * 1_000_000.0 == micros;
  }

  ghost function SumReal(xs: seq<real>): real {
    if xs == [] then 0.0 else SumReal(xs[..|xs| - 1]) + xs[|xs| - 1]
  }

  ghost function SumCharges(xs: seq<real>): int {
    if xs == [] then 0 else SumCharges(xs[..|xs| - 1]) + ChargeToMicros(xs[|xs| - 1])
  }

  lemma {:induction false} ChargesBracketCosts(costs: seq<real>)
    ensures SumReal(costs) * 1_000_000.0 <= SumCharges(costs) as real
    ensures SumCharges(costs) as real <= SumReal(costs) * 1_000_000.0 + |costs| as real
    ensures costs != [] ==> SumCharges(costs) as real < SumReal(costs) * 1_000_000.0 + |costs| as real
  {
    if costs != [] {
      ChargesBracketCosts(costs[..|costs| - 1]);
    }
  }

  /** Rounding is conservative over any number of requests: if the integer charges fit the
      integer cap, the exact costs fit the exact budget; and rounding wastes less than one
      micro-dollar a request. */
  lemma AdmittedSumFitsExactBudget(costs: seq<real>, budgetUsd: real)
    requires SumCharges(costs) <= BudgetToMicros(budgetUsd)
    ensures SumReal(costs) <= budgetUsd
    ensures costs != [] ==> SumCharges(costs) as real < SumReal(costs) * 1_000_000.0 + |costs| as real
  {
    ChargesBracketCosts(costs);
  }

  // ---------------------------------------------------------------- scopes

  datatype ScopeBudget = ScopeBudget(budgetUsd: real, windowSeconds: nat, ttlSeconds: real)

  datatype TenantBudget = TenantBudget(own: ScopeBudget, apiKeys: map<string, ScopeBudget>)

  const FINGERPRINT_LENGTH := 16

  function TenantScope(tenant: string): string {
    "tenant:" + tenant
  }

  function KeyScope(tenant: string, fingerprint: string): string {
    "key:" + tenant + ":" + fingerprint
  }

  /** The scope a request is charged to. `fingerprint` hashes a key to a fixed-length name. */
  function ScopeFor(tenants: map<string, TenantBudget>, fallback: ScopeBudget, fingerprint: string -> string,
                    tenant: string, apiKey: Option<string>): (string, ScopeBudget)
  {
    if tenant !in tenants then (TenantScope(tenant), fallback)
    else if apiKey.Some? && apiKey.value != "" && apiKey.value in tenants[tenant].apiKeys then
      (KeyScope(tenant, fingerprint(apiKey.value)), tenants[tenant].apiKeys[apiKey.value])
    else (TenantScope(tenant), tenants[tenant].own)
  }

  lemma ScopeNamesInjective(t: string, f: string, u: string, g: string)
    requires |f| == |g| == FINGERPRINT_LENGTH
    ensures KeyScope(t, f) == KeyScope(u, g) <==> t == u && f == g
    ensures TenantScope(t) == TenantScope(u) <==> t == u
    ensures TenantScope(t) != KeyScope(u, g)
  {
    if KeyScope(t, f) == KeyScope(u, g) {
      assert |t| == |u|;
      assert KeyScope(t, f)[4..4 + |t|] == t && KeyScope(u, g)[4..4 + |u|] == u;
      assert KeyScope(t, f)[5 + |t|..] == f && KeyScope(u, g)[5 + |u|..] == g;
    }
    if TenantScope(t) == TenantScope(u) {
      assert TenantScope(t)[7..] == t && TenantScope(u)[7..] == u;
    }
    assert TenantScope(t)[0] == 't' && KeyScope(u, g)[0] == 'k';
  }

  predicate HasKeyBudget(tenants: map<string, TenantBudget>, tenant: string, apiKey: Option<string>) {
    tenant in tenants && apiKey.Some? && apiKey.value != "" && apiKey.value in tenants[tenant].apiKeys
  }

  /** Two requests share a budget exactly when they come from one tenant and either neither
      has a key budget or both keys have the same fingerprint. */
  lemma SharedScope(tenants: map<string, TenantBudget>, fallback: ScopeBudget, fingerprint: string -> string,
                    t: string, k: Option<string>, u: string, l: Option<string>)
    requires forall s :: |fingerprint(s)| == FINGERPRINT_LENGTH
    ensures ScopeFor(tenants, fallback, fingerprint, t, k).0 == ScopeFor(tenants, fallback, fingerprint, u, l).0
            <==> t == u && HasKeyBudget(tenants, t, k) == HasKeyBudget(tenants, u, l)
                 && (HasKeyBudget(tenants, t, k) ==> fingerprint(k.value) == fingerprint(l.value))
  {
    var f := if HasKeyBudget(tenants, t, k) then fingerprint(k.value) else fingerprint("");
    var g := if HasKeyBudget(tenants, u, l) then fingerprint(l.value) else fingerprint("");
    ScopeNamesInjective(t, f, u, g);
    ScopeNamesInjective(u, g, t, f);
  }

  /** A model's own price comes first, then the wildcard, then the default. */
  lemma PriceOrder(prices: map<string, Price>, model: string, inputTokens: nat, outputTokens: nat)
    requires "*" in prices || "default" in prices
    ensures var cost := ExactCost(prices, model, inputTokens, outputTokens) * 1_000_000.0;
            var p := if model in prices then prices[model]
                     else if "*" in prices then prices["*"] else prices["default"];
            cost == inputTokens as real * p.inputPerMillion + outputTokens as real * p.outputPerMillion
  {
    var p := PriceFor(prices, model);
    var micros := inputTokens as real * p.inputPerMillion + outputTokens as real * p.outputPerMillion;
    assert (micros / 1_000_000.0) * 1_000_000.0 == micros;
  }

  /** The budget that comes with a scope: an unknown tenant has the fallback, a non-empty key that
      the tenant lists has its own, and all else the tenant's. */
  lemma BudgetOfScope(tenants: map<string, TenantBudget>, fallback: ScopeBudget, fingerprint: string -> string,
                      tenant: string, apiKey: Option<string>)
    ensures var (name, budget) := ScopeFor(tenants, fallback, fingerprint, tenant, apiKey);
            && (tenant !in tenants ==> name == "tenant:" + tenant && budget == fallback)
            && (tenant in tenants && (apiKey == None || apiKey.value == "" || apiKey.value !in tenants[tenant].apiKeys)
                ==> name == "tenant:" + tenant && budget == tenants[tenant].own)
            && (tenant in tenants && apiKey.Some? && apiKey.value != "" && apiKey.value in tenants[tenant].apiKeys
                ==> name == "key:" + tenant + ":" + fingerprint(apiKey.value)
                    && budget == tenants[tenant].apiKeys[apiKey.value])
  {
  }
}
