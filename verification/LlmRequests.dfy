/** What an LLM call is allowed to ask for: the request policy, the request itself, and
    the reservation it needs, all computed from the configuration. */
module LlmRequests {
  import opened Basics
  import opened Json

  const DEFAULT_MODEL: string := "deepseek/deepseek-v4-flash-0731"
  const MAX_TOKENS: int := 16384
  const DEADLINE_SLACK: real := 30.0

  datatype Policy = Policy(model: string, maxTokens: int, temperature: real, timeout: real, retries: int,
      structured: bool)

  /** Explicit arguments that override the configuration. */
  datatype Overrides = Overrides(model: Option<string>, temperature: Option<real>, maxTokens: Option<int>,
      timeout: Option<real>, structured: Option<bool>)

  /** A setting given once, or per processor. */
  function ProcessorValue(llm: map<string, Json>, key: string, processor: string, default: Json): Json {
    var configured := Get(llm, key, default);
    if configured.Obj? then Get(configured.fields, processor, default) else configured
  }

  function LlmConfig(config: map<string, Json>): Option<map<string, Json>> {
    var llm := Get(config, "llm", Obj(map[]));
    if llm.Obj? then Some(llm.fields) else None
  }

  function ResolveModel(llm: map<string, Json>, model: Option<string>): (m: string)
    ensures m != ""
  {
    if model.Some? && model.value != "" then model.value
    else
      var models := Get(llm, "models", Obj(map[]));
      var default := if models.Obj? then Get(models.fields, "default", Null) else Null;
      if default.Str? && Strip(default.s) != "" then Strip(default.s) else DEFAULT_MODEL
  }

  function Temperature(llm: map<string, Json>, processor: string, given: Option<real>): Option<real> {
    var t := if given.Some? then given
             else Number(ProcessorValue(llm, "temperatures", processor, Get(llm, "temperature", Real(0.2))));
    if t.Some? && 0.0 <= t.value <= 2.0 then t else None
  }

  function Tokens(llm: map<string, Json>, processor: string, given: Option<int>): Option<int> {
    var j := if given.Some? then Int(given.value) else ProcessorValue(llm, "max_output_tokens", processor, Int(2048));
    if j.Int? && 1 <= j.n <= MAX_TOKENS then Some(j.n) else None
  }

  function StageTimeout(llm: map<string, Json>, given: Option<real>): Option<real> {
    var t := if given.Some? then given else Number(Get(llm, "stage_timeout_seconds", Real(90.0)));
    if t.Some? && t.value > 0.0 then t else None
  }

  function ValidationRetries(llm: map<string, Json>): Option<int> {
    var j := Get(llm, "validation_retries", Int(1));
    if j.Int? && 0 <= j.n <= 1 then Some(j.n) else None
  }

  /** The checked policy, or none if any part of it is refused. */
  function ResolvePolicy(config: map<string, Json>, processor: string, o: Overrides): (p: Option<Policy>)
    ensures p.Some? ==> p.value.model != "" && 0 <= p.value.retries <= 1 && p.value.timeout > 0.0
  {
    var llm := LlmConfig(config);
    if llm.None? then None else
      var tokens := Tokens(llm.value, processor, o.maxTokens);
      var temperature := Temperature(llm.value, processor, o.temperature);
      var timeout := StageTimeout(llm.value, o.timeout);
      var retries := ValidationRetries(llm.value);
      if tokens.None? || temperature.None? || timeout.None? || retries.None? || "max_retries" in llm.value then None
      else
        var structured := if o.structured.Some? then o.structured.value
                          else Truthy(ProcessorValue(llm.value, "structured_response", processor, Bool(false)));
        var model := ResolveModel(llm.value, o.model);
        Some(Policy(model, tokens.value, temperature.value, timeout.value, retries.value, structured))
  }

  // ---- the request ----

  /** What is asked of the model, besides its policy. */
  datatype Ask = Ask(prompt: string, messages: Option<seq<Json>>, includeTemperature: Option<Json>,
      schema: Option<Json>, effort: Option<string>)

  predicate ValidMessage(m: Json) {
    && m.Obj?
    && Get(m.fields, "role", Null) in {Str("system"), Str("user"), Str("assistant")}
    && Get(m.fields, "content", Null).Str? && Get(m.fields, "content", Null).s != ""
  }

  function Messages(a: Ask): Option<seq<Json>> {
    if a.messages.None? then Some([Obj(map["role" := Str("user"), "content" := Str(a.prompt)])])
    else if a.messages.value == [] then None
    else if exists i :: 0 <= i < |a.messages.value| && !ValidMessage(a.messages.value[i]) then None
    else a.messages
  }

  /** The provider preferences' price limit: none, a non-empty object, or refused. */
  function MaxPrice(llm: map<string, Json>, processor: string): Option<Json> {
    var m := ProcessorValue(llm, "max_prices", processor, Null);
    if m.Null? || (m.Obj? && m.fields != map[]) then Some(m) else None
  }

  function SchemaConfig(schema: Json): Json
    requires schema.Obj?
  {
    if Get(schema.fields, "name", Null).Str? && Get(schema.fields, "schema", Null).Obj? then schema
    else Obj(map["name" := Str("structured_response"), "strict" := Bool(true), "schema" := schema])
  }

  function ResponseFormat(p: Policy, a: Ask): map<string, Json>
    requires a.schema.Some? ==> a.schema.value.Obj?
  {
    if a.schema.Some? then
      map["response_format" := Obj(map["type" := Str("json_schema"), "json_schema" := SchemaConfig(a.schema.value)])]
    else if p.structured then map["response_format" := Obj(map["type" := Str("json_object")])]
    else map[]
  }

  function Preferences(llm: map<string, Json>, processor: string, p: Policy, a: Ask, price: Json): map<string, Json> {
    (if price.Obj? then map["max_price" := price] else map[])
    + (if (a.schema.Some? || p.structured) && Truthy(ProcessorValue(llm, "require_parameters", processor, Bool(true)))
       then map["require_parameters" := Bool(true)] else map[])
  }

  function Body(p: Policy, a: Ask, withTemperature: bool, messages: seq<Json>,
      preferences: map<string, Json>): map<string, Json>
    requires a.schema.Some? ==> a.schema.value.Obj?
  {
    map["model" := Str(p.model), "messages" := Arr(messages), "max_tokens" := Int(p.maxTokens)]
    + (if withTemperature then map["temperature" := Real(p.temperature)] else map[])
    + ResponseFormat(p, a)
    + (if preferences != map[] then map["provider" := Obj(preferences)] else map[])
    + (if a.effort.Some? then map["reasoning" := Obj(map["effort" := Str(a.effort.value)])] else map[])
  }

  /** The request body and the key it is sent with, or none if the request is refused. */
  function Prepare(llm: map<string, Json>, processor: string, p: Policy, a: Ask): Option<(map<string, Json>, Json)> {
    var temperature :=
      if a.includeTemperature.Some? then a.includeTemperature.value else Get(llm, "include_temperature", Bool(true));
    var messages := Messages(a);
    var price := MaxPrice(llm, processor);
    if !temperature.Bool? || messages.None? || price.None? then None
    else if (a.schema.Some? && !a.schema.value.Obj?) || "api_key" !in llm then None
    else
      var preferences := Preferences(llm, processor, p, a, price.value);
      var body := Body(p, a, temperature.b, messages.value, preferences);
      if Serializable(Obj(body)) then Some((body, ProcessorValue(llm, "api_keys", processor, llm["api_key"]))) else None
  }

  /** How a stage repeats its own settings when it makes the call. */
  function Repeated(p: Policy, remaining: real): Overrides {
    Overrides(Some(p.model), Some(p.temperature), Some(p.maxTokens), Some(remaining), Some(p.structured))
  }

  /** What passed the checks before admission passes them again after it, and asks for
      the same request: no admitted call is refused for its own settings. */
  lemma {:induction false} CheckedOnceHoldsTwice(config: map<string, Json>, processor: string, o: Overrides,
      p: Policy, a: Ask, remaining: real)
    requires ResolvePolicy(config, processor, o) == Some(p) && remaining > 0.0
    ensures ResolvePolicy(config, processor, Repeated(p, remaining)) == Some(p.(timeout := remaining))
    ensures LlmConfig(config).Some?
    ensures
      var llm := LlmConfig(config).value;
      Prepare(llm, processor, p.(timeout := remaining), a) == Prepare(llm, processor, p, a)
  {
    var q, llm := p.(timeout := remaining), LlmConfig(config).value;
    assert ResponseFormat(q, a.(schema := None)) == ResponseFormat(p, a.(schema := None));
    assert a.schema.Some? && a.schema.value.Obj? ==> ResponseFormat(q, a) == ResponseFormat(p, a);
    assert forall price :: Preferences(llm, processor, q, a, price) == Preferences(llm, processor, p, a, price);
  }

  // ---- the reservation ----

  predicate Lower(a: string, b: string) {
    |a| == |b| && forall i :: 0 <= i < |a| ==>
      b[i] == if 'A' <= a[i] <= 'Z' then (a[i] as int - 'A' as int + 'a' as int) as char else a[i]
  }

  function Lowered(s: string): (r: string)
    ensures Lower(s, r)
  {
    seq(|s|, i requires 0 <= i < |s| =>
      if 'A' <= s[i] <= 'Z' then (s[i] as int - 'A' as int + 'a' as int) as char else s[i])
  }

  predicate EndsWith(s: string, suffix: string) {
    |suffix| <= |s| && s[|s| - |suffix|..] == suffix
  }

  predicate KnownFree(model: string) { EndsWith(Lowered(Strip(model)), ":free") }

  /** A finite number; booleans and strings are refused. */
  function Coerce(j: Json): Option<real> {
    match j
    case Int(n) => Some(n as real)
    case Real(x) => Some(x)
    case _ => None
  }

  /** float(value) where it succeeds; parse reads a number off a string. */
  function Float(j: Json, parse: string -> Option<real>): Option<real> {
    if j.Str? then parse(j.s) else Number(j)
  }

  /** How long a reservation lives: long enough for the configured call deadline, or refused. */
  function ReservationTtl(config: map<string, Json>, parse: string -> Option<real>): Option<real> {
    var budgets := Get(config, "budgets", Obj(map[]));
    if !budgets.Obj? then None else
      var ttl := Coerce(Get(budgets.fields, "reservation_ttl_seconds", Real(600.0)));
      var llm := LlmConfig(config);
      if ttl.None? || ttl.value <= 0.0 then None
      else if llm.None? then ttl
      else
        var configured := Float(Get(llm.value, "stage_timeout_seconds", Real(90.0)), parse);
        var stage := if configured.Some? then configured.value else 90.0;
        if ttl.value < Max(stage, 0.0) + DEADLINE_SLACK then None else ttl
  }

  /** What a call reserves: nothing for a free model, a configured positive price for any
      other, and for how long. */
  function ReservationPolicy(config: map<string, Json>, processor: string, model: string,
      parse: string -> Option<real>): Option<(real, real)> {
    var budgets := Get(config, "budgets", Obj(map[]));
    var ttl := ReservationTtl(config, parse);
    if !budgets.Obj? || ttl.None? then None
    else if KnownFree(model) then Some((0.0, ttl.value))
    else
      var estimates := Get(budgets.fields, "estimates", Null);
      var own := if estimates.Obj? then Get(estimates.fields, processor, Null) else Null;
      var price := Coerce(if own.Null? then Get(budgets.fields, "reservation_estimate_usd", Null) else own);
      if price.Some? && price.value > 0.0 then Some((price.value, ttl.value)) else None
  }

  /** Only known-free models are admitted without reserving money. */
  lemma {:induction false} PaidModelsReserve(config: map<string, Json>, processor: string, model: string,
      parse: string -> Option<real>)
    ensures
      var r := ReservationPolicy(config, processor, model, parse);
      r.Some? ==> (r.value.0 == 0.0 <==> KnownFree(model)) && r.value.0 >= 0.0 && r.value.1 > 0.0
  {
  }

  /** A reservation outlives the longest HTTP window of a stage, however much of the
      stage's time is left. */
  lemma {:induction false} TtlCoversStageCall(config: map<string, Json>, processor: string, o: Overrides, p: Policy,
      remaining: real, ttl: real, parse: string -> Option<real>)
    requires ResolvePolicy(config, processor, o) == Some(p) && o.timeout.None?
    requires ReservationTtl(config, parse) == Some(ttl) && remaining <= p.timeout
    ensures remaining + 30.0 <= ttl
  {
  }

  /** A caller that brings its own, longer timeout is not covered. */
  lemma {:induction false} ExplicitTimeoutCanOutlast()
    ensures
      var config: map<string, Json> := map[];
      var o := Overrides(None, None, None, Some(1000.0), None);
      var p := ResolvePolicy(config, "filings", o);
      var ttl := ReservationTtl(config, s => None);
      p.Some? && ttl.Some? && p.value.timeout + DEADLINE_SLACK > ttl.value
  {
  }
}
