/** What the configuration file says and what an LLM call then does: the policy, the request
    that is sent, and what is reserved for it, each read off the settings themselves. */
module LlmSettings {
  import opened Basics
  import opened Json
  import opened LlmRequests

  /** The setting is given, for all processors at once or for this one. */
  ghost predicate Says(llm: map<string, Json>, key: string, processor: string, v: Json) {
    && key in llm
    && if llm[key].Obj? then processor in llm[key].fields && llm[key].fields[processor] == v else llm[key] == v
  }

  ghost predicate Silent(llm: map<string, Json>, key: string, processor: string) {
    key !in llm || (llm[key].Obj? && processor !in llm[key].fields)
  }

  const NO_OVERRIDES: Overrides := Overrides(None, None, None, None, None)

  /** The number a setting stands for; booleans count as zero and one. */
  ghost predicate Stands(j: Json, x: real) {
    j == Real(x) || (j.Int? && x == j.n as real) || (j.Bool? && x == if j.b then 1.0 else 0.0)
  }

  // ---- the policy ----

  /** What the configuration gives is what the policy asks for; a value out of its range is
      refused, not corrected. */
  lemma {:induction false} PolicyFollowsSettings(config: map<string, Json>, llm: map<string, Json>, processor: string,
      tokens: Json, temperature: Json, t: real, timeout: Json, s: real, retries: Json)
    requires "llm" in config && config["llm"] == Obj(llm)
    requires Says(llm, "max_output_tokens", processor, tokens)
    requires Says(llm, "temperatures", processor, temperature) && Stands(temperature, t)
    requires "stage_timeout_seconds" in llm && llm["stage_timeout_seconds"] == timeout && Stands(timeout, s)
    requires "validation_retries" in llm && llm["validation_retries"] == retries
    ensures
      var p := ResolvePolicy(config, processor, NO_OVERRIDES);
      && (p.Some? <==>
            && tokens.Int? && 1 <= tokens.n <= 16384
            && 0.0 <= t <= 2.0 && s > 0.0
            && retries.Int? && 0 <= retries.n <= 1 && "max_retries" !in llm)
      && (p.Some? ==>
            && p.value.maxTokens == tokens.n && p.value.temperature == t && p.value.timeout == s
            && p.value.retries == retries.n)
  {
  }

  /** Settings that are not given take their defaults. */
  lemma {:induction false} SilentSettingsDefault(config: map<string, Json>, llm: map<string, Json>, processor: string)
    requires "llm" in config && config["llm"] == Obj(llm) && "max_retries" !in llm
    requires Silent(llm, "max_output_tokens", processor)
    requires Silent(llm, "temperatures", processor) && "temperature" !in llm
    requires "stage_timeout_seconds" !in llm && "validation_retries" !in llm && "models" !in llm
    requires Silent(llm, "structured_response", processor)
    ensures ResolvePolicy(config, processor, NO_OVERRIDES) ==
      Some(Policy("deepseek/deepseek-v4-flash-0731", 2048, 0.2, 90.0, 1, false))
  {
  }

  /** A caller's own values go before the configuration's, and are held to the same ranges. */
  lemma {:induction false} OverridesGoFirst(config: map<string, Json>, processor: string, model: string, t: real,
      n: int, s: real, structured: bool)
    requires model != ""
    ensures
      var p := ResolvePolicy(config, processor, Overrides(Some(model), Some(t), Some(n), Some(s), Some(structured)));
      && (p.Some? ==> p.value == Policy(model, n, t, s, p.value.retries, structured))
      && (p.Some? ==> 1 <= n <= 16384 && 0.0 <= t <= 2.0 && s > 0.0)
      && (config == map[] && 1 <= n <= 16384 && 0.0 <= t <= 2.0 && s > 0.0 ==> p.Some?)
  {
  }

  /** The shared temperature is what processors without one of their own get. */
  lemma {:induction false} SharedTemperature(config: map<string, Json>, llm: map<string, Json>, processor: string,
      t: Json, x: real)
    requires "llm" in config && config["llm"] == Obj(llm) && Silent(llm, "temperatures", processor)
    requires "temperature" in llm && llm["temperature"] == t && Stands(t, x)
    ensures
      var p := ResolvePolicy(config, processor, NO_OVERRIDES);
      p.Some? ==> p.value.temperature == x && 0.0 <= x <= 2.0
  {
  }

  /** s without what surrounds it. */
  ghost predicate Trims(s: string, before: string, t: string, after: string) {
    && s == before + t + after
    && (forall i :: 0 <= i < |before| ==> IsSpace(before[i])) && (forall i :: 0 <= i < |after| ==> IsSpace(after[i]))
    && (t != "" ==> !IsSpace(t[0]) && !IsSpace(t[|t| - 1]))
  }

  lemma {:induction false} StripLeftTrims(s: string) returns (before: string)
    ensures s == before + StripLeft(s) && forall i :: 0 <= i < |before| ==> IsSpace(before[i])
    ensures StripLeft(s) != "" ==> !IsSpace(StripLeft(s)[0])
  {
    if s != "" && IsSpace(s[0]) {
      var rest := StripLeftTrims(s[1..]);
      before := [s[0]] + rest;
      assert s == [s[0]] + s[1..];
    } else {
      before := "";
    }
  }

  lemma {:induction false} StripRightTrims(s: string) returns (after: string)
    ensures s == StripRight(s) + after && forall i :: 0 <= i < |after| ==> IsSpace(after[i])
    ensures StripRight(s) != "" ==> StripRight(s)[0] == s[0] && !IsSpace(StripRight(s)[|StripRight(s)| - 1])
  {
    if s != "" && IsSpace(s[|s| - 1]) {
      var rest := StripRightTrims(s[..|s| - 1]);
      after := rest + [s[|s| - 1]];
      assert s == s[..|s| - 1] + [s[|s| - 1]];
    } else {
      after := "";
    }
  }

  lemma {:induction false} StripTrims(s: string) returns (before: string, after: string)
    ensures Trims(s, before, Strip(s), after)
  {
    before := StripLeftTrims(s);
    after := StripRightTrims(StripLeft(s));
    assert s == before + (Strip(s) + after);
  }

  /** The configured default model, without surrounding white space, is the one asked. */
  lemma {:induction false} ConfiguredModelIsAsked(config: map<string, Json>, llm: map<string, Json>,
      models: map<string, Json>, processor: string, before: string, name: string, after: string)
    requires "llm" in config && config["llm"] == Obj(llm) && "models" in llm && llm["models"] == Obj(models)
    requires "default" in models && models["default"] == Str(before + name + after)
    requires Trims(before + name + after, before, name, after) && name != ""
    ensures
      var p := ResolvePolicy(config, processor, NO_OVERRIDES);
      p.Some? ==> p.value.model == name
  {
    var s := before + name + after;
    var b, a := StripTrims(s);
    TrimmedOnce(s, before, name, after, b, Strip(s), a);
  }

  /** All that is trimmed away is white space, and the ends of what is left are not. */
  lemma {:induction false} SpacesAround(s: string, b: string, t: string, a: string, i: nat)
    requires Trims(s, b, t, a) && i < |s|
    ensures i < |b| || i >= |b| + |t| ==> IsSpace(s[i])
    ensures t != "" && (i == |b| || i == |b| + |t| - 1) ==> s[i] == t[i - |b|] && !IsSpace(s[i])
  {
    if i < |b| {
      assert s[i] == b[i];
    } else if i >= |b| + |t| {
      assert s[i] == a[i - |b| - |t|];
    } else {
      assert s[i] == t[i - |b|];
    }
  }

  /** There is one way to trim a text that is not all white space. */
  lemma {:induction false} TrimmedOnce(s: string, b: string, t: string, a: string, b': string, t': string, a': string)
    requires Trims(s, b, t, a) && Trims(s, b', t', a') && t != ""
    ensures t == t'
  {
    SpacesAround(s, b, t, a, |b|);
    SpacesAround(s, b', t', a', |b|);
    SpacesAround(s, b, t, a, |b| + |t| - 1);
    SpacesAround(s, b', t', a', |b| + |t| - 1);
    SpacesAround(s, b, t, a, |b'|);
    SpacesAround(s, b', t', a', |b'|);
    SpacesAround(s, b, t, a, |b'| + |t'| - 1);
    SpacesAround(s, b', t', a', |b'| + |t'| - 1);
    assert t == s[|b|..|b| + |t|] && t' == s[|b'|..|b'| + |t'|];
  }

  // ---- the request ----

  ghost predicate IsMessage(m: Json) {
    && m.Obj? && "role" in m.fields && m.fields["role"].Str?
    && m.fields["role"].s in {"system", "user", "assistant"}
    && "content" in m.fields && m.fields["content"].Str? && m.fields["content"].s != ""
  }

  /** Messages are sent as they are if there is one and each has a known role and a text;
      without messages the prompt is sent as the user's. */
  lemma {:induction false} MessagesAreSent(a: Ask)
    ensures Messages(a).Some? <==>
      || a.messages.None?
      || (a.messages.value != [] && forall i :: 0 <= i < |a.messages.value| ==> IsMessage(a.messages.value[i]))
    ensures
      var prompt := Obj(map["role" := Str("user"), "content" := Str(a.prompt)]);
      Messages(a).Some? ==> Messages(a).value == if a.messages.Some? then a.messages.value else [prompt]
  {
    forall m ensures ValidMessage(m) <==> IsMessage(m) {
    }
  }

  lemma {:induction false} FormatIsSent(p: Policy, a: Ask)
    requires a.schema.Some? ==> a.schema.value.Obj?
    ensures ResponseFormat(p, a).Keys == if a.schema.Some? || p.structured then {"response_format"} else {}
    ensures a.schema.None? && p.structured ==>
      ResponseFormat(p, a)["response_format"] == Obj(map["type" := Str("json_object")])
  {
  }

  /** The five parts of a body do not get in each other's way. */
  lemma {:induction false} PartsStay(base: map<string, Json>, t: map<string, Json>, f: map<string, Json>,
      p: map<string, Json>, e: map<string, Json>)
    requires base.Keys == {"model", "messages", "max_tokens"}
    requires t.Keys <= {"temperature"} && f.Keys <= {"response_format"} && p.Keys <= {"provider"}
    requires e.Keys <= {"reasoning"}
    ensures
      var body := base + t + f + p + e;
      && ("temperature" in body <==> t != map[]) && ("response_format" in body <==> f != map[])
      && ("provider" in body <==> p != map[]) && ("reasoning" in body <==> e != map[])
      && base.Keys <= body.Keys
      && (forall k :: k in base ==> body[k] == base[k]) && (forall k :: k in t ==> body[k] == t[k])
      && (forall k :: k in f ==> body[k] == f[k]) && (forall k :: k in p ==> body[k] == p[k])
      && (forall k :: k in e ==> body[k] == e[k])
  {
  }

  /** A request carries the policy, the messages and the effort that were asked for. */
  ghost predicate Carries(p: Policy, a: Ask, messages: seq<Json>, body: map<string, Json>) {
    && {"model", "messages", "max_tokens"} <= body.Keys
    && body["model"] == Str(p.model) && body["max_tokens"] == Int(p.maxTokens)
    && body["messages"] == Arr(messages)
    && ("temperature" in body ==> body["temperature"] == Real(p.temperature))
    && ("reasoning" in body <==> a.effort.Some?)
    && (a.effort.Some? ==> body["reasoning"] == Obj(map["effort" := Str(a.effort.value)]))
    && ("response_format" in body <==> a.schema.Some? || p.structured)
    && (a.schema.None? && p.structured ==> body["response_format"] == Obj(map["type" := Str("json_object")]))
  }

  /** The request's five parts. */
  ghost predicate MadeOf(body: map<string, Json>, base: map<string, Json>, t: map<string, Json>, f: map<string, Json>,
      p: map<string, Json>, e: map<string, Json>) {
    body == base + t + f + p + e
  }

  lemma {:induction false} BodyParts(p: Policy, a: Ask, withTemperature: bool, messages: seq<Json>,
      preferences: map<string, Json>)
    requires a.schema.Some? ==> a.schema.value.Obj?
    ensures MadeOf(Body(p, a, withTemperature, messages, preferences),
      map["model" := Str(p.model), "messages" := Arr(messages), "max_tokens" := Int(p.maxTokens)],
      if withTemperature then map["temperature" := Real(p.temperature)] else map[],
      ResponseFormat(p, a),
      if preferences != map[] then map["provider" := Obj(preferences)] else map[],
      if a.effort.Some? then map["reasoning" := Obj(map["effort" := Str(a.effort.value)])] else map[])
  {
  }

  lemma {:induction false} PartsCarry(p: Policy, a: Ask, messages: seq<Json>, body: map<string, Json>,
      base: map<string, Json>, t: map<string, Json>, f: map<string, Json>, pr: map<string, Json>, e: map<string, Json>)
    requires MadeOf(body, base, t, f, pr, e)
    requires base == map["model" := Str(p.model), "messages" := Arr(messages), "max_tokens" := Int(p.maxTokens)]
    requires t == map[] || t == map["temperature" := Real(p.temperature)]
    requires f.Keys == if a.schema.Some? || p.structured then {"response_format"} else {}
    requires a.schema.None? && p.structured ==> f["response_format"] == Obj(map["type" := Str("json_object")])
    requires pr.Keys <= {"provider"}
    requires e == if a.effort.Some? then map["reasoning" := Obj(map["effort" := Str(a.effort.value)])] else map[]
    ensures Carries(p, a, messages, body)
    ensures "temperature" in body <==> t != map[]
    ensures "provider" in body <==> "provider" in pr
    ensures "provider" in pr ==> body["provider"] == pr["provider"]
    ensures "response_format" in body <==> "response_format" in f
    ensures "response_format" in f ==> body["response_format"] == f["response_format"]
  {
    assert base.Keys == {"model", "messages", "max_tokens"};
    PartsStay(base, t, f, pr, e);
  }

  lemma {:induction false} BodyCarries(p: Policy, a: Ask, withTemperature: bool, messages: seq<Json>,
      preferences: map<string, Json>, body: map<string, Json>)
    requires a.schema.Some? ==> a.schema.value.Obj?
    requires body == Body(p, a, withTemperature, messages, preferences)
    ensures Carries(p, a, messages, body)
    ensures "temperature" in body <==> withTemperature
    ensures "provider" in body <==> preferences != map[]
    ensures preferences != map[] ==> body["provider"] == Obj(preferences)
    ensures a.schema.Some? ==>
      "response_format" in body && body["response_format"] == ResponseFormat(p, a)["response_format"]
  {
    FormatIsSent(p, a);
    BodyParts(p, a, withTemperature, messages, preferences);
    PartsCarry(p, a, messages, body,
      map["model" := Str(p.model), "messages" := Arr(messages), "max_tokens" := Int(p.maxTokens)],
      if withTemperature then map["temperature" := Real(p.temperature)] else map[],
      ResponseFormat(p, a),
      if preferences != map[] then map["provider" := Obj(preferences)] else map[],
      if a.effort.Some? then map["reasoning" := Obj(map["effort" := Str(a.effort.value)])] else map[]);
  }

  /** The body of an accepted request. */
  lemma {:induction false} PreparedBody(llm: map<string, Json>, processor: string, p: Policy, a: Ask)
    requires Prepare(llm, processor, p, a).Some?
    ensures SendsTemperature(llm, a).Bool? && Messages(a).Some? && MaxPrice(llm, processor).Some?
    ensures a.schema.Some? ==> a.schema.value.Obj?
    ensures Prepare(llm, processor, p, a).value.0 ==
      Body(p, a, SendsTemperature(llm, a).b, Messages(a).value,
        Preferences(llm, processor, p, a, MaxPrice(llm, processor).value))
  {
  }

  lemma {:induction false} PreparedCarries(llm: map<string, Json>, processor: string, p: Policy, a: Ask)
    requires Prepare(llm, processor, p, a).Some?
    ensures SendsTemperature(llm, a).Bool? && Messages(a).Some? && MaxPrice(llm, processor).Some?
    ensures a.schema.Some? ==> a.schema.value.Obj?
    ensures
      var body, sent := Prepare(llm, processor, p, a).value.0,
        Preferences(llm, processor, p, a, MaxPrice(llm, processor).value);
      && Carries(p, a, Messages(a).value, body)
      && ("temperature" in body <==> SendsTemperature(llm, a).b)
      && ("provider" in body <==> sent != map[]) && (sent != map[] ==> body["provider"] == Obj(sent))
      && (a.schema.Some? ==>
            "response_format" in body && body["response_format"] == ResponseFormat(p, a)["response_format"])
  {
    PreparedBody(llm, processor, p, a);
    BodyCarries(p, a, SendsTemperature(llm, a).b, Messages(a).value,
      Preferences(llm, processor, p, a, MaxPrice(llm, processor).value), Prepare(llm, processor, p, a).value.0);
  }

  /** Whether the temperature is sent: as the caller says, or else the configuration. */
  ghost function SendsTemperature(llm: map<string, Json>, a: Ask): Json {
    if a.includeTemperature.Some? then a.includeTemperature.value
    else if "include_temperature" in llm then llm["include_temperature"]
    else Bool(true)
  }

  /** The request says what was asked for. */
  lemma {:induction false} RequestCarriesWhatWasAsked(llm: map<string, Json>, processor: string, p: Policy, a: Ask)
    requires Prepare(llm, processor, p, a).Some?
    ensures
      var body := Prepare(llm, processor, p, a).value.0;
      && "messages" in body && body["messages"].Arr? && Carries(p, a, body["messages"].items, body)
      && SendsTemperature(llm, a).Bool? && ("temperature" in body <==> SendsTemperature(llm, a).b)
      && (a.messages.None? ==>
            body["messages"].items == [Obj(map["role" := Str("user"), "content" := Str(a.prompt)])])
      && (a.messages.Some? ==>
            && a.messages.value != [] && body["messages"].items == a.messages.value
            && forall i :: 0 <= i < |a.messages.value| ==> IsMessage(a.messages.value[i]))
  {
    PreparedCarries(llm, processor, p, a);
    MessagesAreSent(a);
  }

  lemma {:induction false} SentIsJson(llm: map<string, Json>, processor: string, p: Policy, a: Ask)
    requires Prepare(llm, processor, p, a).Some?
    ensures Serializable(Obj(Prepare(llm, processor, p, a).value.0))
  {
  }

  lemma {:induction false} FieldIsJson(fields: map<string, Json>, k: string)
    requires Serializable(Obj(fields)) && k in fields
    ensures Serializable(fields[k])
  {
  }

  /** Nothing that JSON cannot say is sent. */
  lemma {:induction false} OnlyJsonIsSent(llm: map<string, Json>, processor: string, p: Policy, a: Ask, m: Json)
    requires Prepare(llm, processor, p, a).Some? && (Has(m, NonFinite) || Has(m, Opaque))
    ensures a.messages.None? || m !in a.messages.value
    ensures a.schema != Some(m)
  {
    SerializableIff(m);
    SentIsJson(llm, processor, p, a);
    RequestCarriesWhatWasAsked(llm, processor, p, a);
    FieldIsJson(Prepare(llm, processor, p, a).value.0, "messages");
    if a.schema.Some? {
      SchemaIsJson(llm, processor, p, a);
    }
  }

  lemma {:induction false} SchemaIsJson(llm: map<string, Json>, processor: string, p: Policy, a: Ask)
    requires Prepare(llm, processor, p, a).Some? && a.schema.Some?
    ensures Serializable(a.schema.value)
  {
    SentIsJson(llm, processor, p, a);
    SchemaIsSent(llm, processor, p, a);
    var format := Prepare(llm, processor, p, a).value.0["response_format"];
    FieldIsJson(Prepare(llm, processor, p, a).value.0, "response_format");
    FieldIsJson(format.fields, "json_schema");
    SentSchema(format.fields["json_schema"], a.schema.value);
  }

  lemma {:induction false} SentSchema(sent: Json, schema: Json)
    requires Serializable(sent)
    requires sent == schema || (sent.Obj? && "schema" in sent.fields && sent.fields["schema"] == schema)
    ensures Serializable(schema)
  {
  }

  /** The request is sent with the processor's own key, or else with the common one. */
  lemma {:induction false} OwnKeyGoesFirst(llm: map<string, Json>, processor: string, p: Policy, a: Ask)
    requires Prepare(llm, processor, p, a).Some?
    ensures "api_key" in llm
    ensures
      var key := Prepare(llm, processor, p, a).value.1;
      && (forall k :: Says(llm, "api_keys", processor, k) ==> key == k)
      && (Silent(llm, "api_keys", processor) && !llm["api_key"].Obj? ==> key == llm["api_key"])
  {
  }

  /** A schema is sent as it is if it names itself, and otherwise as a strict schema. */
  ghost predicate Formatted(format: Json, schema: map<string, Json>) {
    && format.Obj? && format.fields.Keys == {"type", "json_schema"}
    && format.fields["type"] == Str("json_schema")
    && if "name" in schema && schema["name"].Str? && "schema" in schema && schema["schema"].Obj?
       then format.fields["json_schema"] == Obj(schema)
       else
         format.fields["json_schema"]
           == Obj(map["name" := Str("structured_response"), "strict" := Bool(true), "schema" := Obj(schema)])
  }

  lemma {:induction false} SchemaFormat(p: Policy, a: Ask)
    requires a.schema.Some? && a.schema.value.Obj?
    ensures "response_format" in ResponseFormat(p, a)
    ensures Formatted(ResponseFormat(p, a)["response_format"], a.schema.value.fields)
  {
    var format := Obj(map["type" := Str("json_schema"), "json_schema" := SchemaConfig(a.schema.value)]);
    assert ResponseFormat(p, a)["response_format"] == format;
  }

  lemma {:induction false} SchemaIsSent(llm: map<string, Json>, processor: string, p: Policy, a: Ask)
    requires Prepare(llm, processor, p, a).Some? && a.schema.Some?
    ensures a.schema.value.Obj?
    ensures
      var body := Prepare(llm, processor, p, a).value.0;
      "response_format" in body && Formatted(body["response_format"], a.schema.value.fields)
  {
    PreparedCarries(llm, processor, p, a);
    SchemaFormat(p, a);
  }

  /** A value that counts as false. */
  ghost predicate IsNothing(j: Json) {
    || j == Null || j == Bool(false) || j == Int(0) || j == Real(0.0) || j == Str("") || j == Arr([])
    || j == Obj(map[])
  }

  /** What the request tells the provider, besides the question. */
  ghost predicate Prefers(llm: map<string, Json>, processor: string, formatted: bool, sent: map<string, Json>) {
    && (forall price :: Says(llm, "max_prices", processor, price) ==>
          price == Null || (price.Obj? && price.fields != map[] && "max_price" in sent && sent["max_price"] == price))
    && (Silent(llm, "max_prices", processor) ==> "max_price" !in sent)
    && ("require_parameters" in sent ==> sent["require_parameters"] == Bool(true) && formatted)
    && (formatted && Silent(llm, "require_parameters", processor) ==> "require_parameters" in sent)
    && (forall v :: formatted && Says(llm, "require_parameters", processor, v) ==>
          ("require_parameters" in sent <==> !IsNothing(v)))
  }

  lemma {:induction false} PreferencesFollowSettings(llm: map<string, Json>, processor: string, p: Policy, a: Ask)
    requires MaxPrice(llm, processor).Some?
    ensures Prefers(llm, processor, a.schema.Some? || p.structured,
      Preferences(llm, processor, p, a, MaxPrice(llm, processor).value))
  {
  }

  /** A price limit is sent along, and a request for a format insists on it unless that is
      switched off. */
  lemma {:induction false} PreferencesAreSent(llm: map<string, Json>, processor: string, p: Policy, a: Ask)
    requires Prepare(llm, processor, p, a).Some?
    ensures
      var body := Prepare(llm, processor, p, a).value.0;
      && ("provider" in body ==> body["provider"].Obj?)
      && Prefers(llm, processor, a.schema.Some? || p.structured,
           if "provider" in body then body["provider"].fields else map[])
  {
    PreparedCarries(llm, processor, p, a);
    PreferencesFollowSettings(llm, processor, p, a);
  }

  lemma {:induction false} PlainData(m: map<string, Json>)
    requires forall k :: k in m ==> Serializable(m[k])
    ensures Serializable(Obj(m))
  {
  }

  lemma {:induction false} PlainBody(p: Policy, prompt: string, preferences: map<string, Json>)
    requires forall k :: k in preferences ==> Serializable(preferences[k])
    ensures
      var m := Obj(map["role" := Str("user"), "content" := Str(prompt)]);
      Serializable(Obj(Body(p, Ask(prompt, None, None, None, None), true, [m], preferences)))
  {
    var m := map["role" := Str("user"), "content" := Str(prompt)];
    PlainData(m);
    PlainData(preferences);
    PlainData(map["type" := Str("json_object")]);
    assert Serializable(Arr([Obj(m)]));
    PlainData(Body(p, Ask(prompt, None, None, None, None), true, [Obj(m)], preferences));
  }

  /** Nothing stands in the way of a plain question. */
  lemma {:induction false} PlainQuestionIsSent(llm: map<string, Json>, processor: string, p: Policy, prompt: string)
    requires "include_temperature" !in llm && Silent(llm, "max_prices", processor)
    ensures Prepare(llm, processor, p, Ask(prompt, None, None, None, None)).Some? <==> "api_key" in llm
  {
    PlainBody(p, prompt, Preferences(llm, processor, p, Ask(prompt, None, None, None, None), Null));
  }

  // ---- the reservation ----

  /** The price a call is reserved at: the processor's own, or the general one. */
  ghost predicate Priced(budgets: map<string, Json>, processor: string, price: Json) {
    if "estimates" in budgets && budgets["estimates"].Obj? && processor in budgets["estimates"].fields
       && budgets["estimates"].fields[processor] != Null
    then price == budgets["estimates"].fields[processor]
    else "reservation_estimate_usd" in budgets && price == budgets["reservation_estimate_usd"]
  }

  /** A paid call reserves its configured price for the configured time; without a positive
      price it is refused. */
  lemma {:induction false} PaidCallsReserveTheirPrice(config: map<string, Json>, budgets: map<string, Json>,
      processor: string, model: string, parse: string -> Option<real>, price: Json)
    requires "budgets" in config && config["budgets"] == Obj(budgets) && Priced(budgets, processor, price)
    requires !KnownFree(model) && ReservationTtl(config, parse).Some?
    ensures
      var r := ReservationPolicy(config, processor, model, parse);
      && (r.Some? <==> (price.Real? && price.x > 0.0) || (price.Int? && price.n > 0))
      && (r.Some? ==> price == Real(r.value.0) || (price.Int? && r.value.0 == price.n as real))
      && (r.Some? ==> r.value.1 == ReservationTtl(config, parse).value)
  {
  }

  /** The configured life is taken if it is positive and covers the stage's timeout and
      thirty seconds, and refused otherwise. */
  lemma {:induction false} LifeIsConfigured(config: map<string, Json>, budgets: map<string, Json>,
      llm: map<string, Json>, parse: string -> Option<real>, ttl: real, timeout: real)
    requires "budgets" in config && config["budgets"] == Obj(budgets) && "llm" in config && config["llm"] == Obj(llm)
    requires "reservation_ttl_seconds" in budgets && budgets["reservation_ttl_seconds"] == Real(ttl)
    requires "stage_timeout_seconds" in llm && llm["stage_timeout_seconds"] == Real(timeout)
    ensures ReservationTtl(config, parse) ==
      if ttl > 0.0 && ttl >= 30.0 && ttl >= timeout + 30.0 then Some(ttl) else None
  {
  }

  ghost predicate AnyCase(c: char, low: char, high: char) { c == low || c == high }

  /** ":free", in capitals or not. */
  ghost predicate IsMark(mark: string) {
    && |mark| == 5 && mark[0] == ':' && AnyCase(mark[1], 'f', 'F') && AnyCase(mark[2], 'r', 'R')
    && AnyCase(mark[3], 'e', 'E') && AnyCase(mark[4], 'e', 'E')
  }

  /** The name ends in the mark, before any white space. */
  ghost predicate MarkedFree(model: string, stem: string, mark: string, spaces: string) {
    && model == stem + mark + spaces && IsMark(mark)
    && forall i :: 0 <= i < |spaces| ==> IsSpace(spaces[i])
  }

  lemma {:induction false} FiveLetters(low: string)
    requires |low| == 5
    ensures low == ":free" <==> low[0] == ':' && low[1] == 'f' && low[2] == 'r' && low[3] == 'e' && low[4] == 'e'
  {
    assert ":free" == [':', 'f', 'r', 'e', 'e'];
    assert low == [low[0], low[1], low[2], low[3], low[4]];
  }

  lemma {:induction false} LoweredAt(s: string, i: nat)
    requires i < |s|
    ensures |Lowered(s)| == |s|
    ensures Lowered(s)[i] == 'f' <==> AnyCase(s[i], 'f', 'F')
    ensures Lowered(s)[i] == 'r' <==> AnyCase(s[i], 'r', 'R')
    ensures Lowered(s)[i] == 'e' <==> AnyCase(s[i], 'e', 'E')
    ensures Lowered(s)[i] == ':' <==> s[i] == ':'
  {
    assert Lower(s, Lowered(s));
  }

  lemma {:induction false} LoweredIsFree(mark: string)
    requires |mark| == 5
    ensures Lowered(mark) == ":free" <==> IsMark(mark)
  {
    LoweredAt(mark, 0);
    LoweredAt(mark, 1);
    LoweredAt(mark, 2);
    LoweredAt(mark, 3);
    LoweredAt(mark, 4);
    FiveLetters(Lowered(mark));
  }

  /** Calls are free exactly for models so marked. */
  lemma {:induction false} FreeModelsAreMarked(model: string)
    ensures KnownFree(model) <==> exists stem, mark, spaces :: MarkedFree(model, stem, mark, spaces)
  {
    var before, after := StripTrims(model);
    if KnownFree(model) {
      FreeIsMarked(model, before, Strip(model), after);
    }
    if stem, mark, spaces :| MarkedFree(model, stem, mark, spaces) {
      MarkedIsFree(model, stem, mark, spaces, before, Strip(model), after);
    }
  }

  lemma {:induction false} LoweredEnd(t: string)
    requires |t| >= 5
    ensures |Lowered(t)| == |t| && Lowered(t[|t| - 5..]) == Lowered(t)[|t| - 5..]
  {
  }

  lemma {:induction false} FreeIsMarked(model: string, before: string, t: string, after: string)
    requires Trims(model, before, t, after) && EndsWith(Lowered(t), ":free")
    ensures exists stem, mark, spaces :: MarkedFree(model, stem, mark, spaces)
  {
    assert |Lowered(t)| == |t|;
    LoweredEnd(t);
    var stem, mark := before + t[..|t| - 5], t[|t| - 5..];
    LoweredIsFree(mark);
    assert t == t[..|t| - 5] + mark;
    assert model == stem + mark + after;
    assert MarkedFree(model, stem, mark, after);
  }

  lemma {:induction false} MarkedIsFree(model: string, stem: string, mark: string, spaces: string,
      before: string, t: string, after: string)
    requires MarkedFree(model, stem, mark, spaces) && Trims(model, before, t, after)
    ensures EndsWith(Lowered(t), ":free")
  {
    MarkStays(model, stem, mark, spaces, before, t, after);
    LoweredIsFree(mark);
    LoweredEnd(t);
  }

  /** Trimming does not reach the mark. */
  lemma {:induction false} MarkStays(model: string, stem: string, mark: string, spaces: string,
      before: string, t: string, after: string)
    requires MarkedFree(model, stem, mark, spaces) && Trims(model, before, t, after)
    ensures |t| >= 5 && t[|t| - 5..] == mark
  {
    var end := |stem| + 5;
    assert model[|stem|] == ':' && model[end - 1] == mark[4];
    SpacesAround(model, before, t, after, |stem|);
    SpacesAround(model, before, t, after, end - 1);
    var last := |before| + |t| - 1;
    SpacesAround(model, before, t, after, last);
    forall i | end <= i < |model| ensures IsSpace(model[i]) {
      assert model[i] == spaces[i - end];
    }
    assert t == model[|before|..end];
    assert mark == model[|stem|..end];
  }
}
