/**
 * The OpenRouter client. The chat-model library is replaced by oracles: a
 * one-shot service that answers a message list with text or raises, and a
 * streaming service that delivers chunks and may raise part-way.
 */
module Llm {
  import opened Wrappers
  import opened Text
  import opened Configuration

  /** A chat message: the system instruction or the user's input. */
  datatype Message = SystemMessage(content: string) | HumanMessage(content: string)

  /** An exception, by kind: `LLMError` or any other exception, with its `str()`. */
  datatype Error = LLMError(message: string) | OtherError(message: string)

  const BaseUrl: string := "https://openrouter.ai/api/v1"

  /** An `LLMClient`: the settings it hands to the chat model. */
  datatype Client = Client(model: string, apiKey: string, baseUrl: string, streaming: bool)

  /** `ainvoke`: the reply to one request, or the exception it raised. */
  type Service = (Client, seq<Message>) -> Result<string, Error>

  /** `astream`: the chunk contents delivered, then the text of the exception that ended the stream, if any. */
  datatype Upstream = Upstream(chunks: seq<string>, failure: Option<string>)
  type StreamService = (Client, seq<Message>) -> Upstream

  /**
   * What `LLMClient(model)` builds with a configuration whose validation flag
   * is `validated`: the model is the argument when it is truthy, else the
   * configured model; the API key comes from the `api_key` property, whose
   * error aborts construction.
   */
  function ClientOutcome(validated: bool, env: Env, model: Option<string>): Result<Client, string> {
    var m := if model.Some? && model.value != "" then model.value else Config.Model(env);
    match ApiKeyOutcome(validated, env)
    case Failure(e) => Failure(e)
    case Success(key) => Success(Client(m, key, BaseUrl, true))
  }

  /** Construction fails exactly when the key is not available, and otherwise picks the model and key as configured. */
  lemma ClientOutcomeSpec(validated: bool, env: Env, model: Option<string>)
    ensures ClientOutcome(validated, env, model).Success? <==> ApiKeyOutcome(validated, env).Success?
    ensures !validated ==> (ClientOutcome(validated, env, model).Success? <==> IsSet(env, ApiKeyVar))
    ensures ClientOutcome(validated, env, model).Success? ==>
      var c := ClientOutcome(validated, env, model).value;
      && c.apiKey == env[ApiKeyVar]
      && (model.Some? && model.value != "" ==> c.model == model.value)
      && (model.None? || model.value == "" ==>
            c.model == if "OPENROUTER_MODEL" in env then env["OPENROUTER_MODEL"] else "gpt-3.5-turbo")
  {
    ApiKeyOutcomeSpec(validated, env);
  }

  /** `LLMClient(model)`: reads the configuration, which validates it on first success. */
  method NewClient(cfg: Config, env: Env, model: Option<string>) returns (r: Result<Client, string>)
    modifies cfg
    ensures r == ClientOutcome(old(cfg.validated), env, model)
    ensures cfg.validated == (old(cfg.validated) || IsSet(env, ApiKeyVar))
  {
    var m := if model.Some? && model.value != "" then model.value else Config.Model(env);
    var key := cfg.ApiKey(env);
    match key
    case Failure(e) => r := Failure(e);
    case Success(k) => r := Success(Client(m, k, BaseUrl, true));
  }

  const DefaultMaxSentences: int := 3
  const DirectivePrefix: string := "\n\nGenerate a post in exactly "
  const DirectiveSuffix: string := " sentences."

  /** The system message `generate` sends: the prompt followed by the sentence-count directive. */
  function FullPrompt(systemPrompt: string, maxSentences: int): string {
    systemPrompt + DirectivePrefix + IntToString(maxSentences) + DirectiveSuffix
  }

  /** The system prompt is kept verbatim in front, and the sentence count reads back from the directive. */
  lemma FullPromptRoundTrip(systemPrompt: string, maxSentences: int)
    ensures var r := FullPrompt(systemPrompt, maxSentences);
      && StartsWith(r, systemPrompt + DirectivePrefix)
      && |r| >= |systemPrompt| + |DirectivePrefix| + |DirectiveSuffix|
      && r[|r| - |DirectiveSuffix|..] == DirectiveSuffix
      && ParseInt(r[|systemPrompt| + |DirectivePrefix|..|r| - |DirectiveSuffix|]) == Success(maxSentences)
  {
    var r := FullPrompt(systemPrompt, maxSentences);
    var n := IntToString(maxSentences);
    assert r == (systemPrompt + DirectivePrefix) + n + DirectiveSuffix;
    assert r[..|systemPrompt + DirectivePrefix|] == systemPrompt + DirectivePrefix;
    assert r[|systemPrompt| + |DirectivePrefix|..|r| - |DirectiveSuffix|] == n;
    ParseIntOfIntToString(maxSentences);
  }

  /** The two messages `generate` sends: the full system prompt, then the user input unchanged. */
  function GenerateRequest(systemPrompt: string, userInput: string, maxSentences: int): (msgs: seq<Message>)
    ensures |msgs| == 2
    ensures msgs[0].SystemMessage? && msgs[0].content == FullPrompt(systemPrompt, maxSentences)
    ensures msgs[1] == HumanMessage(userInput)
  {
    [SystemMessage(FullPrompt(systemPrompt, maxSentences)), HumanMessage(userInput)]
  }

  /**
   * `LLMClient.generate`: one call of the service, with neither retry nor
   * error conversion; whatever the service raises propagates as it is.
   */
  function Generate(client: Client, service: Service, systemPrompt: string, userInput: string,
                    maxSentences: int): Result<string, Error>
  {
    service(client, GenerateRequest(systemPrompt, userInput, maxSentences))
  }

  /** The two messages `generate_stream` sends: the system prompt has no directive. */
  function StreamRequest(systemPrompt: string, userInput: string): seq<Message> {
    [SystemMessage(systemPrompt), HumanMessage(userInput)]
  }

  /** The chunks kept by `if chunk.content:`, in order. */
  function NonEmptyChunks(chunks: seq<string>): (kept: seq<string>)
    ensures |kept| <= |chunks|
    ensures forall i :: 0 <= i < |kept| ==> kept[i] != ""
  {
    if chunks == [] then []
    else
      var last := chunks[|chunks| - 1];
      NonEmptyChunks(chunks[..|chunks| - 1]) + (if last == "" then [] else [last])
  }

  /** The text a sequence of chunks spells out. */
  function Concat(chunks: seq<string>): string {
    if chunks == [] then [] else Concat(chunks[..|chunks| - 1]) + chunks[|chunks| - 1]
  }

  /** Dropping the empty chunks loses none of the streamed text. */
  lemma {:induction false} NonEmptyChunksKeepText(chunks: seq<string>)
    ensures Concat(NonEmptyChunks(chunks)) == Concat(chunks)
  {
    if chunks != [] {
      var init := chunks[..|chunks| - 1];
      var last := chunks[|chunks| - 1];
      NonEmptyChunksKeepText(init);
      if last == "" {
        assert NonEmptyChunks(init) + [] == NonEmptyChunks(init);
        assert Concat(init) + last == Concat(init);
      } else {
        var k := NonEmptyChunks(init) + [last];
        assert k[..|k| - 1] == NonEmptyChunks(init);
      }
    }
  }

  /** A stream without empty chunks is passed on unchanged. */
  lemma {:induction false} NonEmptyChunksOfNonEmpty(chunks: seq<string>)
    requires forall i :: 0 <= i < |chunks| ==> chunks[i] != ""
    ensures NonEmptyChunks(chunks) == chunks
  {
    if chunks != [] {
      NonEmptyChunksOfNonEmpty(chunks[..|chunks| - 1]);
    }
  }

  /** A single chunk is yielded on its own exactly when it is non-empty. */
  lemma NonEmptyChunksOfOne(chunk: string)
    ensures NonEmptyChunks([chunk]) == if chunk == "" then [] else [chunk]
  {
    assert [chunk][..0] == [];
  }

  /**
   * Filtering a stream is filtering its parts in turn: chunks are never
   * merged, split or reordered across a boundary.
   */
  lemma {:induction false} NonEmptyChunksAppend(a: seq<string>, b: seq<string>)
    ensures NonEmptyChunks(a + b) == NonEmptyChunks(a) + NonEmptyChunks(b)
    decreases |b|
  {
    if b == [] {
      assert a + b == a;
    } else {
      var init := b[..|b| - 1];
      var last := b[|b| - 1];
      NonEmptyChunksAppend(a, init);
      assert (a + b)[..|a + b| - 1] == a + init;
      assert (a + b)[|a + b| - 1] == last;
      var tail := if last == "" then [] else [last];
      assert NonEmptyChunks(a + b) == (NonEmptyChunks(a) + NonEmptyChunks(init)) + tail;
      assert NonEmptyChunks(b) == NonEmptyChunks(init) + tail;
    }
  }

  /** Every non-empty chunk is yielded as many times as it arrived, and nothing else is yielded. */
  lemma {:induction false} NonEmptyChunksCount(chunks: seq<string>)
    ensures multiset(NonEmptyChunks(chunks)) == multiset(chunks)["" := 0]
  {
    if chunks != [] {
      var init := chunks[..|chunks| - 1];
      var last := chunks[|chunks| - 1];
      NonEmptyChunksCount(init);
      assert chunks == init + [last];
      var tail := if last == "" then [] else [last];
      assert multiset(NonEmptyChunks(chunks)) == multiset(NonEmptyChunks(init)) + multiset(tail);
      assert multiset(chunks) == multiset(init) + multiset{last};
    }
  }

  /** A chunk is yielded iff it arrived and is non-empty. */
  lemma NonEmptyChunksMembers(chunks: seq<string>)
    ensures forall c :: c in NonEmptyChunks(chunks) <==> c in chunks && c != ""
  {
    NonEmptyChunksCount(chunks);
    forall c
      ensures c in NonEmptyChunks(chunks) <==> c in chunks && c != ""
    {
      assert c in NonEmptyChunks(chunks) <==> c in multiset(NonEmptyChunks(chunks));
      assert c in chunks <==> c in multiset(chunks);
    }
  }

  /** The `LLMError` a failing stream is converted into. */
  function StreamError(message: string): Error {
    LLMError("Failed to generate content: " + message)
  }

  /**
   * `LLMClient.generate_stream` run to its end: the non-empty chunks it
   * yields, in order, and the `LLMError` it then raises if the upstream
   * failed; the chunks yielded before the failure stay yielded.
   */
  method GenerateStream(client: Client, service: StreamService, systemPrompt: string, userInput: string)
    returns (yielded: seq<string>, err: Option<Error>)
    ensures var up := service(client, StreamRequest(systemPrompt, userInput));
      && yielded == NonEmptyChunks(up.chunks)
      && (up.failure.None? ==> err.None?)
      && (up.failure.Some? ==> err == Some(StreamError(up.failure.value)))
  {
    var up := service(client, StreamRequest(systemPrompt, userInput));
    yielded := [];
    var i := 0;
    while i < |up.chunks|
      invariant 0 <= i <= |up.chunks|
      invariant yielded == NonEmptyChunks(up.chunks[..i])
    {
      assert up.chunks[..i + 1][..i] == up.chunks[..i];
      if up.chunks[i] != "" {
        yielded := yielded + [up.chunks[i]];
      }
      i := i + 1;
    }
    assert up.chunks[..|up.chunks|] == up.chunks;
    err := if up.failure.Some? then Some(StreamError(up.failure.value)) else None;
  }

  /** `stop_after_attempt(3)` */
  const MaxAttempts: nat := 3

  /**
   * The retry policy from attempt `i` on, given what each attempt would
   * return: the result that ends the calls and how many calls were made in all.
   */
  function RetryFrom<T>(attempt: nat -> Result<T, Error>, i: nat): (Result<T, Error>, nat)
    requires i < MaxAttempts
    decreases MaxAttempts - i
  {
    if attempt(i).Success? || i + 1 == MaxAttempts then (attempt(i), i + 1)
    else RetryFrom(attempt, i + 1)
  }

  /**
   * The policy makes between one and three attempts, stops at the first
   * success, returns the last attempt's result, and re-raises the third
   * failure as it is.
   */
  lemma {:induction false} RetryFromSpec<T>(attempt: nat -> Result<T, Error>, i: nat)
    requires i < MaxAttempts
    requires forall j :: 0 <= j < i ==> attempt(j).Failure?
    ensures var (r, n) := RetryFrom(attempt, i);
      && i < n <= MaxAttempts
      && r == attempt(n - 1)
      && (forall j :: 0 <= j < n - 1 ==> attempt(j).Failure?)
      && (r.Failure? ==> n == MaxAttempts)
    decreases MaxAttempts - i
  {
    if !(attempt(i).Success? || i + 1 == MaxAttempts) {
      RetryFromSpec(attempt, i + 1);
    }
  }

  /** Two failures and then a success: three calls, and the success is returned. */
  lemma RetrySucceedsOnThirdAttempt<T>(attempt: nat -> Result<T, Error>)
    requires attempt(0).Failure? && attempt(1).Failure? && attempt(2).Success?
    ensures RetryFrom(attempt, 0) == (attempt(2), 3)
  {
  }

  /**
   * The `@retry` policy declared on `generate_stream`: any exception is
   * retried, at most three attempts in all, and the last error is re-raised.
   * `attempt(i)` is what the i-th call (from 0) would return.
   */
  method Retry<T>(attempt: nat -> Result<T, Error>) returns (r: Result<T, Error>, attempts: nat)
    ensures (r, attempts) == RetryFrom(attempt, 0)
    ensures 1 <= attempts <= MaxAttempts
    ensures forall j :: 0 <= j < attempts - 1 ==> attempt(j).Failure?
    ensures r == attempt(attempts - 1)
    ensures r.Failure? ==> attempts == MaxAttempts
  {
    RetryFromSpec(attempt, 0);
    attempts := 0;
    r := attempt(0);
    while true
      invariant 0 <= attempts < MaxAttempts
      invariant forall j :: 0 <= j < attempts ==> attempt(j).Failure?
      invariant RetryFrom(attempt, attempts) == RetryFrom(attempt, 0)
      decreases MaxAttempts - attempts
    {
      r := attempt(attempts);
      attempts := attempts + 1;
      if r.Success? || attempts == MaxAttempts {
        return;
      }
    }
  }
}
