/** Settings of the reasoning layer: each one is the explicit argument, else
    the environment variable, else a default; the provider they select; and
    the process-wide configuration slot. The environment is passed in as a
    map and `float()` as a parsing function. */
module ReasoningConfig {
  import opened Wrappers
  import opened Text
  import Provider

  const ENABLE_ENV := "ENABLE_REASONING"
  const PROVIDER_ENV := "REASONING_PROVIDER"
  const MAX_TOKENS_ENV := "REASONING_MAX_TOKENS"
  const TEMPERATURE_ENV := "REASONING_TEMPERATURE"

  const DEFAULT_MAX_TOKENS := 2048
  const DEFAULT_TEMPERATURE: real := 0.0
  const DEFAULT_PROVIDER := "anthropic"

  /** Environment values read as true and as false, after lower-casing. */
  const TRUE_WORDS := ["true", "1", "yes", "on"]
  const FALSE_WORDS := ["false", "0", "no", "off"]

  /** `os.getenv(name, default)`. */
  function GetEnv(env: map<string, string>, name: string, default: string): string {
    if name in env then env[name] else default
  }

  // ---------------------------------------------------------------- booleans

  /** `_parse_bool_env`: the override when given; otherwise the lower-cased
      variable decides when it is one of the known words, and the default
      stands for anything else, a missing variable included. */
  function ParseBoolEnv(name: string, override: Option<bool>, default: bool, env: map<string, string>): (r: bool)
    ensures override.Some? ==> r == override.value
    ensures override.None? ==>
      var v := Lower(GetEnv(env, name, ""));
      (r <==> v in TRUE_WORDS || (v !in FALSE_WORDS && default))
  {
    if override.Some? then override.value
    else
      var value := Lower(GetEnv(env, name, ""));
      if value in TRUE_WORDS then true
      else if value in FALSE_WORDS then false
      else default
  }

  /** Upper and lower case spell the same setting. */
  lemma ParseBoolIgnoresCase(name: string, default: bool, env: map<string, string>, value: string)
    ensures ParseBoolEnv(name, None, default, env[name := value])
         == ParseBoolEnv(name, None, default, env[name := Lower(value)])
  {
    LowerIdempotent(value);
  }

  lemma {:induction false} LowerIdempotent(s: string)
    ensures Lower(Lower(s)) == Lower(s)
  {
    if s != [] {
      LowerIdempotent(s[1..]);
      assert Lower(s)[1..] == Lower(s[1..]);
    }
  }

  // ---------------------------------------------------------------- integers

  predicate IsDigit(c: char) {
    '0' <= c <= '9'
  }

  /** What `int()` accepts after the sign: digits, with single underscores
      between digits. */
  predicate DigitRun(s: string) {
    s != [] && IsDigit(s[0]) && IsDigit(s[|s| - 1]) &&
    (forall k :: 0 <= k < |s| ==> IsDigit(s[k]) || s[k] == '_') &&
    (forall k :: 0 <= k < |s| - 1 ==> s[k] != '_' || s[k + 1] != '_')
  }

  /** The number the digits of `s` spell, underscores skipped. */
  function DigitsValue(s: string): nat {
    if s == [] then 0
    else if IsDigit(s[|s| - 1]) then DigitsValue(s[..|s| - 1]) * 10 + (s[|s| - 1] as int - '0' as int)
    else DigitsValue(s[..|s| - 1])
  }

  /** `int(s)` on a string: surrounding whitespace and a sign are allowed,
      anything else that is not a digit run raises `ValueError` (`None` here). */
  function ParseInt(s: string): (r: Option<int>)
    ensures r.Some? <==>
      var t := Strip(s);
      DigitRun(t) || (t != [] && (t[0] == '-' || t[0] == '+') && DigitRun(t[1..]))
  {
    var t := Strip(s);
    if t != [] && (t[0] == '-' || t[0] == '+') then
      var magnitude: int := DigitsValue(t[1..]);
      if DigitRun(t[1..]) then Some(if t[0] == '-' then -magnitude else magnitude) else None
    else if DigitRun(t) then Some(DigitsValue(t))
    else None
  }

  lemma DigitCharValue(d: nat)
    requires d < 10
    ensures IsDigit(DigitChar(d)) && DigitChar(d) as int - '0' as int == d
  {
    if d == 0 {} else if d == 1 {} else if d == 2 {} else if d == 3 {} else if d == 4 {}
    else if d == 5 {} else if d == 6 {} else if d == 7 {} else if d == 8 {} else {}
  }

  /** The decimal digits `str` writes for a natural number spell it back. */
  lemma {:induction false} NatDigitsValue(n: nat)
    ensures DigitRun(NatToString(n)) && DigitsValue(NatToString(n)) == n
  {
    var s := NatToString(n);
    if n < 10 {
      DigitCharValue(n);
    } else {
      NatDigitsValue(n / 10);
      DigitCharValue(n % 10);
      var p := NatToString(n / 10);
      assert s == p + [DigitChar(n % 10)];
      assert s[..|s| - 1] == p;
      forall k | 0 <= k < |s| ensures IsDigit(s[k]) {
        if k < |p| { assert s[k] == p[k]; }
      }
    }
  }

  /** `int(str(i)) == i`. */
  lemma ParseIntRoundTrip(i: int)
    ensures ParseInt(IntToString(i)) == Some(i)
  {
    var s := IntToString(i);
    var digits := NatToString(if i < 0 then -i else i);
    NatDigitsValue(if i < 0 then -i else i);
    assert s[|s| - 1] == digits[|digits| - 1];
    StripUnchanged(s);
    if i < 0 {
      assert s[1..] == digits;
    } else {
      assert s == digits;
    }
  }

  /** `_parse_int_env`: the override when given; otherwise a non-empty
      variable that `int()` accepts; the default when the variable is
      missing, empty or not a number, without raising. */
  function ParseIntEnv(name: string, override: Option<int>, default: int, env: map<string, string>): (r: int)
    ensures override.Some? ==> r == override.value
    ensures override.None? && (name !in env || env[name] == [] || ParseInt(env[name]).None?) ==> r == default
    ensures override.None? && name in env && ParseInt(env[name]).Some? ==> r == ParseInt(env[name]).value
  {
    if override.Some? then override.value
    else if name in env && env[name] != [] then
      match ParseInt(env[name])
      case Some(v) => v
      case None => default
    else default
  }

  /** A number written to the environment is read back. */
  lemma IntEnvRoundTrip(name: string, default: int, env: map<string, string>, n: int)
    ensures ParseIntEnv(name, None, default, env[name := IntToString(n)]) == n
  {
    ParseIntRoundTrip(n);
  }

  // ------------------------------------------------------------------ floats

  /** `_parse_float_env`, with `float()` given as `parseReal` (`None` where
      it raises): the same fallbacks as for integers. */
  function ParseFloatEnv(name: string, override: Option<real>, default: real, env: map<string, string>,
                         parseReal: string -> Option<real>): (r: real)
    ensures override.Some? ==> r == override.value
    ensures override.None? && (name !in env || env[name] == [] || parseReal(env[name]).None?) ==> r == default
    ensures override.None? && name in env && env[name] != [] && parseReal(env[name]).Some? ==>
      r == parseReal(env[name]).value
  {
    if override.Some? then override.value
    else if name in env && env[name] != [] then
      match parseReal(env[name])
      case Some(v) => v
      case None => default
    else default
  }

  // ---------------------------------------------------------------- provider

  /** The provider name: the argument when non-empty (kept as written),
      else the lower-cased variable (even an empty one), else "anthropic". */
  function ResolveProvider(provider: Option<string>, env: map<string, string>): (r: string)
    ensures provider.Some? && provider.value != [] ==> r == provider.value
    ensures (provider.None? || provider.value == []) && PROVIDER_ENV in env ==> r == Lower(env[PROVIDER_ENV])
    ensures (provider.None? || provider.value == []) && PROVIDER_ENV !in env ==> r == DEFAULT_PROVIDER
  {
    if provider.Some? && provider.value != [] then provider.value
    else Lower(GetEnv(env, PROVIDER_ENV, DEFAULT_PROVIDER))
  }

  /** The backends a provider name can select. */
  datatype Backend = Anthropic | OpenAI

  const NOT_ENABLED := "Reasoning layer is not enabled"

  function Unsupported(name: string): string {
    "Unsupported LLM provider: " + name + ". Supported providers: anthropic, openai"
  }

  /** The dispatch of `get_provider`: disabled fails before the name is looked
      at; the two known names select their backend; any other name fails. */
  function ProviderChoice(enabled: bool, name: string): (r: Result<Backend>)
    ensures !enabled ==> r == Err(ValueError(NOT_ENABLED))
    ensures enabled ==> (r == Ok(Anthropic) <==> name == "anthropic")
    ensures enabled ==> (r == Ok(OpenAI) <==> name == "openai")
    ensures r.Err? ==> r.error.ValueError?
  {
    if !enabled then Err(ValueError(NOT_ENABLED))
    else if name == "anthropic" then Ok(Anthropic)
    else if name == "openai" then Ok(OpenAI)
    else Err(ValueError(Unsupported(name)))
  }

  /** An unknown name is rejected with a message that quotes it and lists the
      supported names. */
  lemma UnsupportedMessage(name: string)
    requires name != "anthropic" && name != "openai"
    ensures var r := ProviderChoice(true, name);
      r.Err? && Contains(r.error.message, name) &&
      Contains(r.error.message, "anthropic") && Contains(r.error.message, "openai")
  {
    var m := Unsupported(name);
    var head := "Unsupported LLM provider: ";
    var list := ". Supported providers: ";
    ContainsMiddle(head, name, list + "anthropic, openai");
    assert head + name + (list + "anthropic, openai") == m;
    ContainsMiddle(head + name + list, "anthropic", ", openai");
    assert head + name + list + "anthropic" + ", openai" == m;
    ContainsMiddle(head + name + list + "anthropic, ", "openai", "");
    assert head + name + list + "anthropic, " + "openai" + "" == m;
  }

  const OPENAI_NOT_IMPLEMENTED := "OpenAI provider not yet implemented. Use AnthropicProvider for now."

  /** The two generation settings handed to a synthesizer. */
  datatype GenerationParams = GenerationParams(maxTokens: int, temperature: real)

  class ReasoningConfig {
    const enabled: bool
    const provider: string
    const maxTokens: int
    const temperature: real

    /** Each setting from its argument, else the environment, else its default. */
    constructor (enabled: Option<bool>, provider: Option<string>, maxTokens: Option<int>, temperature: Option<real>,
                 env: map<string, string>, parseReal: string -> Option<real>)
      ensures this.enabled == ParseBoolEnv(ENABLE_ENV, enabled, false, env)
      ensures this.provider == ResolveProvider(provider, env)
      ensures this.maxTokens == ParseIntEnv(MAX_TOKENS_ENV, maxTokens, DEFAULT_MAX_TOKENS, env)
      ensures this.temperature == ParseFloatEnv(TEMPERATURE_ENV, temperature, DEFAULT_TEMPERATURE, env, parseReal)
    {
      this.enabled := ParseBoolEnv(ENABLE_ENV, enabled, false, env);
      this.provider := ResolveProvider(provider, env);
      this.maxTokens := ParseIntEnv(MAX_TOKENS_ENV, maxTokens, DEFAULT_MAX_TOKENS, env);
      this.temperature := ParseFloatEnv(TEMPERATURE_ENV, temperature, DEFAULT_TEMPERATURE, env, parseReal);
    }

    function IsEnabled(): bool {
      enabled
    }

    function GetProviderName(): string {
      provider
    }

    function GetGenerationParams(): (r: GenerationParams)
      ensures r.maxTokens == maxTokens && r.temperature == temperature
    {
      GenerationParams(maxTokens, temperature)
    }

    /** A new provider of the configured kind, built from the environment and
        the SDK client; the dispatch's error, or the construction's. */
    method GetProvider(env: map<string, string>, client: Provider.Client) returns (r: Result<Provider.AnthropicProvider>)
      ensures ProviderChoice(enabled, provider).Err? ==> r == Err(ProviderChoice(enabled, provider).error)
      ensures ProviderChoice(enabled, provider) == Ok(OpenAI) ==> r == Err(NotImplemented(OPENAI_NOT_IMPLEMENTED))
      ensures ProviderChoice(enabled, provider) == Ok(Anthropic) ==>
        var key := Provider.ResolveApiKey(None, env);
        (key.Err? ==> r == Err(key.error)) &&
        (key.Ok? ==> r.Ok? && fresh(r.value) && r.value.apiKey == key.value &&
                     r.value.model == Provider.ResolveModel(None, env) &&
                     r.value.maxRetries == Provider.MAX_RETRIES && r.value.client == client &&
                     r.value.inputTokens == 0 && r.value.outputTokens == 0)
    {
      var choice := ProviderChoice(enabled, provider);
      match choice {
        case Err(f) =>
          return Err(f);
        case Ok(OpenAI) =>
          return Err(NotImplemented(OPENAI_NOT_IMPLEMENTED));
        case Ok(Anthropic) =>
          r := Provider.NewAnthropicProvider(None, None, Provider.MAX_RETRIES, env, client);
      }
    }
  }

  /** The process-wide configuration: empty until first asked for. */
  class ConfigSlot {
    var current: Option<ReasoningConfig>

    constructor ()
      ensures current == None
    {
      current := None;
    }

    /** `get_config`: the stored instance, or a new one built from the
        environment, which is then stored. */
    method GetConfig(env: map<string, string>, parseReal: string -> Option<real>) returns (c: ReasoningConfig)
      modifies this
      ensures old(current).Some? ==> c == old(current).value && current == old(current)
      ensures old(current).None? ==>
        fresh(c) && current == Some(c) &&
        c.enabled == ParseBoolEnv(ENABLE_ENV, None, false, env) &&
        c.provider == ResolveProvider(None, env) &&
        c.maxTokens == ParseIntEnv(MAX_TOKENS_ENV, None, DEFAULT_MAX_TOKENS, env) &&
        c.temperature == ParseFloatEnv(TEMPERATURE_ENV, None, DEFAULT_TEMPERATURE, env, parseReal)
    {
      if current.None? {
        var created := new ReasoningConfig(None, None, None, None, env, parseReal);
        current := Some(created);
      }
      c := current.value;
    }

    /** `set_config`: later `get_config` calls return `config`. */
    method SetConfig(config: ReasoningConfig)
      modifies this
      ensures current == Some(config)
    {
      current := Some(config);
    }

    /** `reset_config`: the next `get_config` builds a new instance. */
    method ResetConfig()
      modifies this
      ensures current == None
    {
      current := None;
    }
  }

  /** Two `get_config` calls with no `set_config` or `reset_config` between
      them return the same instance; after `set_config(c)` it is `c`; after
      `reset_config` a new one. */
  method ConfigLifecycle(slot: ConfigSlot, c: ReasoningConfig, env: map<string, string>, parseReal: string -> Option<real>)
      returns (first: ReasoningConfig, second: ReasoningConfig, afterSet: ReasoningConfig, afterReset: ReasoningConfig)
    modifies slot
    ensures first == second
    ensures afterSet == c
    ensures fresh(afterReset) && afterReset != c
    ensures slot.current == Some(afterReset)
  {
    first := slot.GetConfig(env, parseReal);
    second := slot.GetConfig(env, parseReal);
    slot.SetConfig(c);
    afterSet := slot.GetConfig(env, parseReal);
    slot.ResetConfig();
    afterReset := slot.GetConfig(env, parseReal);
  }
}
