/** The Anthropic LLM provider: argument checks, a bounded retry loop with
    exponential backoff, and cumulative token counters. The SDK client is a
    scripted object; `time.sleep` is recorded as the list of delays asked for. */
module Provider {
  import opened Wrappers
  import opened Text

  const DEFAULT_MODEL := "claude-sonnet-4-5-20250929"
  const MAX_RETRIES := 3
  const RETRY_DELAY: real := 1.0
  const API_KEY_ENV := "ANTHROPIC_API_KEY"
  const MODEL_ENV := "ANTHROPIC_MODEL"

  /** What one `messages.create` call does: a response (the text of its content
      blocks and its token usage), or an exception with its message. */
  datatype Reply =
    | Response(content: seq<string>, inputTokens: nat, outputTokens: nat)
    | Raised(message: string)

  /** The arguments of one `messages.create` call. */
  datatype Request = Request(model: string, maxTokens: int, temperature: real, system: string, prompt: string)

  /** The SDK client. It answers its n-th request with `script(n)` and keeps
      every request it was sent. */
  class Client {
    const script: nat -> Reply
    var requests: seq<Request>

    constructor (script: nat -> Reply)
      ensures this.script == script && requests == []
    {
      this.script := script;
      requests := [];
    }

    method Create(request: Request) returns (reply: Reply)
      modifies this
      ensures reply == script(|old(requests)|)
      ensures requests == old(requests) + [request]
    {
      reply := script(|requests|);
      requests := requests + [request];
    }
  }

  /** An attempt fails when the client raised, or when the response has no
      content block: `content[0]` then raises, after the usage was counted. */
  predicate Fails(reply: Reply) {
    reply.Raised? || reply.content == []
  }

  /** `str(e)` for the exception that ended a failed attempt. */
  function ErrorText(reply: Reply): string
    requires Fails(reply)
  {
    if reply.Raised? then reply.message else "list index out of range"
  }

  function Pow2(a: nat): (r: nat)
    ensures r >= 1
  {
    if a == 0 then 1 else 2 * Pow2(a - 1)
  }

  /** The delay slept after failed attempt number `attempt` (from 0). */
  function Backoff(attempt: nat): real {
    RETRY_DELAY * (Pow2(attempt) as real)
  }

  /** The delays after attempts `from`, `from + 1`, ... (`count` of them). */
  function Backoffs(from: nat, count: nat): seq<real>
    decreases count
  {
    if count == 0 then [] else [Backoff(from)] + Backoffs(from + 1, count - 1)
  }

  lemma {:induction false} BackoffsIndex(from: nat, count: nat, i: nat)
    requires i < count
    ensures |Backoffs(from, count)| == count && Backoffs(from, count)[i] == RETRY_DELAY * (Pow2(from + i) as real)
    decreases count
  {
    if i > 0 {
      BackoffsIndex(from + 1, count - 1, i - 1);
    } else {
      BackoffsLength(from, count);
    }
  }

  lemma {:induction false} BackoffsLength(from: nat, count: nat)
    ensures |Backoffs(from, count)| == count
    decreases count
  {
    if count > 0 {
      BackoffsLength(from + 1, count - 1);
    }
  }

  /** What a `generate` call did besides its result: client calls made, tokens
      counted and delays slept. */
  datatype Tally = Tally(calls: nat, inputTokens: nat, outputTokens: nat, sleeps: seq<real>)

  const NoTally := Tally(0, 0, 0, [])

  /** `str(e)` for each exception kind. */
  function Message(f: Failure): string {
    match f
    case ProviderError(attempts, lastError) =>
      "Failed to generate response after " + IntToString(attempts) + " attempts: " + lastError
    case ValueError(m) => m
    case TypeError(m) => m
    case KeyError(m) => m
    case AttributeError(m) => m
    case NotImplemented(m) => m
  }

  /** The tally after one more client call that returned `reply`. */
  function Counted(t: Tally, reply: Reply): (r: Tally)
    ensures r.sleeps == t.sleeps && r.calls == t.calls + 1
  {
    if reply.Response? then
      Tally(t.calls + 1, t.inputTokens + reply.inputTokens, t.outputTokens + reply.outputTokens, t.sleeps)
    else t.(calls := t.calls + 1)
  }

  /** The tally after failed attempt `a`: a backoff sleep unless it was the last. */
  function Slept(t: Tally, a: nat, maxRetries: int): Tally {
    if a < maxRetries - 1 then t.(sleeps := t.sleeps + [Backoff(a)]) else t
  }

  /** The retry loop from attempt `a` on: `lastError` is the text of the last
      failure so far ("None" before any), `t` what the earlier attempts did, and
      the client answers attempt `i` with `script(first + i)`. */
  function Retry(script: nat -> Reply, first: nat, maxRetries: int, a: nat, lastError: string, t: Tally): (Result<string>, Tally)
    decreases maxRetries - a, 1
  {
    if a >= maxRetries then (Err(ProviderError(maxRetries, lastError)), t)
    else Attempt(script, first, maxRetries, a, t)
  }

  /** Attempt `a` of the retry loop: its answer if it succeeds, else the
      attempts after it. */
  function Attempt(script: nat -> Reply, first: nat, maxRetries: int, a: nat, t: Tally): (Result<string>, Tally)
    requires a < maxRetries
    decreases maxRetries - a, 0
  {
    var reply := script(first + a);
    if !Fails(reply) then (Ok(reply.content[0]), Counted(t, reply))
    else Retry(script, first, maxRetries, a + 1, ErrorText(reply), Slept(Counted(t, reply), a, maxRetries))
  }

  lemma RetryUnfold(script: nat -> Reply, first: nat, maxRetries: int, a: nat, lastError: string, t: Tally)
    requires a < maxRetries
    ensures var reply := script(first + a);
      Retry(script, first, maxRetries, a, lastError, t) ==
        if !Fails(reply) then (Ok(reply.content[0]), Counted(t, reply))
        else Retry(script, first, maxRetries, a + 1, ErrorText(reply), Slept(Counted(t, reply), a, maxRetries))
  {
  }

  /** The argument checks `generate` makes before any client call, in order. */
  function CheckRequest(prompt: string, maxTokens: int, temperature: real): (r: Option<Failure>)
    ensures r.None? <==> Strip(prompt) != [] && maxTokens > 0 && 0.0 <= temperature <= 1.0
    ensures r.Some? ==> r.value.ValueError?
  {
    if prompt == [] || Strip(prompt) == [] then Some(ValueError("Prompt cannot be empty"))
    else if maxTokens <= 0 then Some(ValueError("max_tokens must be positive"))
    else if !(0.0 <= temperature <= 1.0) then Some(ValueError("temperature must be between 0.0 and 1.0"))
    else None
  }

  /** The outcome of `generate`: the checks, then the retry loop. */
  function Generation(script: nat -> Reply, first: nat, maxRetries: int, prompt: string, maxTokens: int, temperature: real): (Result<string>, Tally) {
    match CheckRequest(prompt, maxTokens, temperature)
    case Some(f) => (Err(f), NoTally)
    case None => Retry(script, first, maxRetries, 0, "None", NoTally)
  }

  /** A rejected request makes no client call and counts nothing. */
  lemma RejectedRequestIsFree(script: nat -> Reply, first: nat, maxRetries: int, prompt: string, maxTokens: int, temperature: real)
    requires Strip(prompt) == [] || maxTokens <= 0 || !(0.0 <= temperature <= 1.0)
    ensures var r := Generation(script, first, maxRetries, prompt, maxTokens, temperature);
      r.0.Err? && r.0.error.ValueError? && r.1 == NoTally
  {
  }

  /** The loop makes at most `maxRetries` calls and never takes tokens back. */
  lemma {:induction false} RetryBounds(script: nat -> Reply, first: nat, maxRetries: int, a: nat, lastError: string, t: Tally)
    ensures var r := Retry(script, first, maxRetries, a, lastError, t);
      t.calls <= r.1.calls <= t.calls + (if maxRetries > a then maxRetries - a else 0) &&
      r.1.inputTokens >= t.inputTokens && r.1.outputTokens >= t.outputTokens
    decreases maxRetries - a
  {
    if a < maxRetries {
      var reply := script(first + a);
      if Fails(reply) {
        RetryBounds(script, first, maxRetries, a + 1, ErrorText(reply), Slept(Counted(t, reply), a, maxRetries));
      }
    }
  }

  /** When attempts `a` .. `k - 1` fail and attempt `k` answers, the loop
      returns the first content block of call `k + 1`, having slept once after
      each failure; if the failures all raised, exactly that response's tokens
      are counted. */
  lemma {:induction false} RetryFirstSuccess(script: nat -> Reply, first: nat, maxRetries: int, a: nat, lastError: string, t: Tally, k: nat)
    requires a <= k < maxRetries
    requires forall n: nat :: first + a <= n < first + k ==> Fails(script(n))
    requires !Fails(script(first + k))
    ensures var r := Retry(script, first, maxRetries, a, lastError, t);
      r.0 == Ok(script(first + k).content[0]) &&
      r.1.calls == t.calls + (k - a) + 1 &&
      r.1.sleeps == t.sleeps + Backoffs(a, k - a) &&
      ((forall n: nat :: first + a <= n < first + k ==> script(n).Raised?) ==>
         r.1.inputTokens == t.inputTokens + script(first + k).inputTokens &&
         r.1.outputTokens == t.outputTokens + script(first + k).outputTokens)
    decreases k - a
  {
    if a < k {
      var reply := script(first + a);
      assert Fails(reply);
      RetryFirstSuccess(script, first, maxRetries, a + 1, ErrorText(reply), Slept(Counted(t, reply), a, maxRetries), k);
      assert Backoffs(a, k - a) == [Backoff(a)] + Backoffs(a + 1, k - (a + 1));
    }
  }

  /** When every remaining attempt fails, the loop raises `LLMProviderError`
      quoting the last failure, after one call per attempt and one sleep between
      consecutive attempts; if every failure raised, no token is counted. */
  lemma {:induction false} RetryAllFail(script: nat -> Reply, first: nat, maxRetries: int, a: nat, lastError: string, t: Tally)
    requires forall n: nat :: first + a <= n < first + maxRetries ==> Fails(script(n))
    ensures var r := Retry(script, first, maxRetries, a, lastError, t);
      r.0 == Err(ProviderError(maxRetries,
        if a < maxRetries then ErrorText(script(first + maxRetries - 1)) else lastError)) &&
      r.1.calls == t.calls + (if a < maxRetries then maxRetries - a else 0) &&
      r.1.sleeps == t.sleeps + Backoffs(a, if a < maxRetries then maxRetries - 1 - a else 0) &&
      ((forall n: nat :: first + a <= n < first + maxRetries ==> script(n).Raised?) ==>
         r.1.inputTokens == t.inputTokens && r.1.outputTokens == t.outputTokens)
    decreases maxRetries - a
  {
    if a < maxRetries {
      var reply := script(first + a);
      assert Fails(reply);
      var next := Slept(Counted(t, reply), a, maxRetries);
      RetryUnfold(script, first, maxRetries, a, lastError, t);
      assert Retry(script, first, maxRetries, a, lastError, t) == Retry(script, first, maxRetries, a + 1, ErrorText(reply), next);
      RetryAllFail(script, first, maxRetries, a + 1, ErrorText(reply), next);
      if a < maxRetries - 1 {
        assert next.sleeps == t.sleeps + [Backoff(a)];
        assert Backoffs(a, maxRetries - 1 - a) == [Backoff(a)] + Backoffs(a + 1, maxRetries - 1 - (a + 1));
      } else {
        assert next.sleeps == t.sleeps;
      }
    }
  }

  /** The API key: the argument if non-empty, else the environment's. */
  function ResolveApiKey(apiKey: Option<string>, env: map<string, string>): (r: Result<string>)
    ensures r.Ok? <==> (apiKey.Some? && apiKey.value != []) || (API_KEY_ENV in env && env[API_KEY_ENV] != [])
    ensures r.Ok? ==> r.value != []
    ensures apiKey.Some? && apiKey.value != [] ==> r == Ok(apiKey.value)
    ensures r.Err? ==> r.error.ValueError?
  {
    var key := if apiKey.Some? && apiKey.value != [] then apiKey.value
      else if API_KEY_ENV in env then env[API_KEY_ENV] else "";
    if key == [] then
      Err(ValueError("Anthropic API key is required. Set ANTHROPIC_API_KEY environment variable or pass api_key parameter."))
    else Ok(key)
  }

  /** The model: the argument if non-empty, else the environment's (even an
      empty one), else the default. */
  function ResolveModel(model: Option<string>, env: map<string, string>): (r: string)
    ensures model.Some? && model.value != [] ==> r == model.value
    ensures (model.None? || model.value == []) && MODEL_ENV in env ==> r == env[MODEL_ENV]
    ensures (model.None? || model.value == []) && MODEL_ENV !in env ==> r == DEFAULT_MODEL
  {
    if model.Some? && model.value != [] then model.value
    else if MODEL_ENV in env then env[MODEL_ENV] else DEFAULT_MODEL
  }

  class AnthropicProvider {
    const apiKey: string
    const model: string
    const maxRetries: int
    const client: Client
    var inputTokens: nat
    var outputTokens: nat
    /** Every delay `time.sleep` was asked for, in order. */
    var sleeps: seq<real>

    constructor (apiKey: string, model: string, maxRetries: int, client: Client)
      requires apiKey != []
      ensures this.apiKey == apiKey && this.model == model && this.maxRetries == maxRetries
      ensures this.client == client
      ensures inputTokens == 0 && outputTokens == 0 && sleeps == []
    {
      this.apiKey := apiKey;
      this.model := model;
      this.maxRetries := maxRetries;
      this.client := client;
      inputTokens := 0;
      outputTokens := 0;
      sleeps := [];
    }

    /** Sends `prompt` with up to `maxRetries` attempts. Every attempt sends the
        same request; the counters and delays grow by what the attempts did. */
    method Generate(prompt: string, systemPrompt: Option<string>, maxTokens: int, temperature: real) returns (r: Result<string>)
      modifies this, client
      ensures var g := Generation(client.script, |old(client.requests)|, maxRetries, prompt, maxTokens, temperature);
        r == g.0 &&
        inputTokens == old(inputTokens) + g.1.inputTokens &&
        outputTokens == old(outputTokens) + g.1.outputTokens &&
        sleeps == old(sleeps) + g.1.sleeps &&
        |client.requests| == |old(client.requests)| + g.1.calls &&
        client.requests[..|old(client.requests)|] == old(client.requests) &&
        forall i :: |old(client.requests)| <= i < |client.requests| ==>
          client.requests[i] == Request(model, maxTokens, temperature, systemPrompt.GetOr(""), prompt)
    {
      var check := CheckRequest(prompt, maxTokens, temperature);
      if check.Some? {
        return Err(check.value);
      }
      assert Generation(client.script, |client.requests|, maxRetries, prompt, maxTokens, temperature)
          == Retry(client.script, |client.requests|, maxRetries, 0, "None", NoTally);
      r := Attempts(Request(model, maxTokens, temperature, systemPrompt.GetOr(""), prompt));
    }

    /** The retry loop of `generate`, sending `request` on every attempt. */
    method Attempts(request: Request) returns (r: Result<string>)
      modifies this, client
      ensures var g := Retry(client.script, |old(client.requests)|, maxRetries, 0, "None", NoTally);
        r == g.0 &&
        inputTokens == old(inputTokens) + g.1.inputTokens &&
        outputTokens == old(outputTokens) + g.1.outputTokens &&
        sleeps == old(sleeps) + g.1.sleeps &&
        |client.requests| == |old(client.requests)| + g.1.calls &&
        client.requests[..|old(client.requests)|] == old(client.requests) &&
        forall i :: |old(client.requests)| <= i < |client.requests| ==> client.requests[i] == request
    {
      ghost var first := |client.requests|;
      ghost var t := NoTally;
      var lastError := "None";
      var attempt: nat := 0;
      while attempt < maxRetries
        invariant Retry(client.script, first, maxRetries, 0, "None", NoTally)
               == Retry(client.script, first, maxRetries, attempt, lastError, t)
        invariant first == |old(client.requests)|
        invariant inputTokens == old(inputTokens) + t.inputTokens
        invariant outputTokens == old(outputTokens) + t.outputTokens
        invariant sleeps == old(sleeps) + t.sleeps
        invariant t.calls == attempt && |client.requests| == first + attempt
        invariant client.requests[..first] == old(client.requests)
        invariant forall i :: first <= i < |client.requests| ==> client.requests[i] == request
        decreases maxRetries - attempt
      {
        var reply := client.Create(request);
        RetryUnfold(client.script, first, maxRetries, attempt, lastError, t);
        if reply.Response? {
          inputTokens := inputTokens + reply.inputTokens;
          outputTokens := outputTokens + reply.outputTokens;
        }
        t := Counted(t, reply);
        if reply.Response? && reply.content != [] {
          return Ok(reply.content[0]);
        }
        lastError := ErrorText(reply);
        if attempt < maxRetries - 1 {
          sleeps := sleeps + [Backoff(attempt)];
        }
        t := Slept(t, attempt, maxRetries);
        attempt := attempt + 1;
      }
      return Err(ProviderError(maxRetries, lastError));
    }

    method GetTokenUsage() returns (input: nat, output: nat)
      ensures input == inputTokens && output == outputTokens
    {
      return inputTokens, outputTokens;
    }

    method ResetTokenUsage()
      modifies this
      ensures inputTokens == 0 && outputTokens == 0 && sleeps == old(sleeps)
    {
      inputTokens := 0;
      outputTokens := 0;
    }
  }

  /** `AnthropicProvider(api_key, model, max_retries)` with the environment and
      the SDK client passed in. */
  method NewAnthropicProvider(apiKey: Option<string>, model: Option<string>, maxRetries: int,
                              env: map<string, string>, client: Client)
    returns (r: Result<AnthropicProvider>)
    ensures ResolveApiKey(apiKey, env).Err? ==> r == Err(ResolveApiKey(apiKey, env).error)
    ensures ResolveApiKey(apiKey, env).Ok? ==>
      r.Ok? && fresh(r.value) &&
      r.value.apiKey == ResolveApiKey(apiKey, env).value && r.value.model == ResolveModel(model, env) &&
      r.value.maxRetries == maxRetries && r.value.client == client &&
      r.value.inputTokens == 0 && r.value.outputTokens == 0 && r.value.sleeps == []
  {
    var key := ResolveApiKey(apiKey, env);
    if key.Err? {
      return Err(key.error);
    }
    var p := new AnthropicProvider(key.value, ResolveModel(model, env), maxRetries, client);
    return Ok(p);
  }
}
