/**
 * `ModelProvider`: backend selection, the streaming `chat` call with its
 * fallback, and the single-shot `generate_response` call with its retry.
 *
 * The OpenAI client library is not modelled: a backend is a function from
 * the request it receives to what it does with it, so every call the
 * provider makes is recorded and its outcome is whatever that function says.
 */
module Provider {
  import opened Wrappers
  import opened PyStr
  import opened Streaming

  // ---------------------------------------------------------------------------
  // Messages and requests
  // ---------------------------------------------------------------------------

  datatype Role = System | User | Assistant

  /** `{"role": role, "content": content}` */
  datatype Message = Message(role: Role, content: string)

  /** The client a request goes through: its `base_url` (`None` is the
      vendor's hosted endpoint) and its `api_key`. */
  datatype Client = Client(baseUrl: Option<string>, apiKey: Option<string>)

  /** One `chat.completions.create` call. */
  datatype Request = Request(client: Client, model: string, messages: seq<Message>)

  /** What a streamed call does: it produces `chunks` and then finishes
      (`failure == None`) or raises `failure`. A call that raises before
      producing anything has no chunks. */
  datatype Attempt = Attempt(chunks: seq<Chunk>, failure: Option<string>)

  /** What a single-shot call does: it returns a first choice whose message
      content may be `None`, or raises. */
  datatype Completion = Replied(content: Option<string>) | Raised(error: string)

  /** The process environment the provider reads. */
  datatype Env = Env(openaiApiKey: Option<string>, ollamaUrl: Option<string>)

  const OpenAI := "openai"
  const DefaultOllamaUrl := "http://localhost:11434"
  const OllamaKey := "ollama"
  const ErrorPrefix := "Error generating response: "
  /** `str` of the exception `None.strip()` raises. */
  const NoneStripError := "'NoneType' object has no attribute 'strip'"

  /** `[{"role": "system", ...}] + history + [{"role": "user", ...}]` */
  function ChatMessages(systemPrompt: string, history: seq<Message>, message: string): (ms: seq<Message>)
    ensures |ms| == |history| + 2
    ensures ms[0] == Message(System, systemPrompt)
    ensures ms[|ms| - 1] == Message(User, message)
    ensures ms[1..|ms| - 1] == history
  {
    [Message(System, systemPrompt)] + history + [Message(User, message)]
  }

  /** The client of the `/api` fallback for a local backend at `base`. */
  function FallbackClient(base: string): Client {
    Client(Some(base + "/api"), Some(OllamaKey))
  }

  /** The client `_init_client` builds. */
  function PrimaryClient(provider: string, env: Env): (c: Client)
    ensures provider == OpenAI ==> c == Client(None, env.openaiApiKey)
    ensures provider != OpenAI ==> c == Client(Some(env.ollamaUrl.GetOr(DefaultOllamaUrl) + "/v1"), Some(OllamaKey))
  {
    if provider == OpenAI then Client(None, env.openaiApiKey)
    else Client(Some(env.ollamaUrl.GetOr(DefaultOllamaUrl) + "/v1"), Some(OllamaKey))
  }

  /** The primary and fallback clients of a local backend point at the same
      base URL, under the two different paths `/v1` and `/api`. */
  lemma LocalEndpoints(provider: string, env: Env)
    requires provider != OpenAI
    ensures var base := env.ollamaUrl.GetOr(DefaultOllamaUrl);
      PrimaryClient(provider, env).baseUrl == Some(base + "/v1")
      && FallbackClient(base).baseUrl == Some(base + "/api")
      && PrimaryClient(provider, env) != FallbackClient(base)
  {
    var base := env.ollamaUrl.GetOr(DefaultOllamaUrl);
    assert (base + "/v1")[|base| + 1] == 'v' != 'a' == (base + "/api")[|base| + 1];
  }

  /** `is_qwen3()`: the model name, lower-cased, mentions `qwen` or `qwen3`. */
  predicate IsQwen3(model: string) {
    Contains(Lower(model), "qwen") || Contains(Lower(model), "qwen3")
  }

  /** The `qwen3` test adds nothing to the `qwen` test. */
  lemma IsQwen3Iff(model: string)
    ensures IsQwen3(model) <==> Contains(Lower(model), "qwen")
  {
    if Contains(Lower(model), "qwen3") {
      assert "qwen3" == "qwen" + "3";
      ContainsLonger(Lower(model), "qwen", "3");
    }
  }

  /** `Qwen3-32B` is taken for a reasoning model and `gpt-4o-mini` is not. */
  lemma ReasoningModelExamples()
    ensures IsQwen3("Qwen3-32B")
    ensures !IsQwen3("gpt-4o-mini")
  {
    assert IsQwen3("Qwen3-32B") by {
      assert Lower("Qwen3-32B")[..4] == "qwen";
    }
    var g := Lower("gpt-4o-mini");
    assert g == "gpt-4o-mini";
    assert 'q' !in g;
    IsQwen3Iff("gpt-4o-mini");
    if Contains(g, "qwen") {
      ContainsFirst(g, "qwen");
    }
  }

  /** The error snapshot a failed stream ends with. */
  function ErrorSnapshot(error: string): Snapshot {
    Plain(ErrorPrefix + error)
  }

  /** The snapshot yielded once a stream's last attempt has raised, if it has. */
  function ErrorTail(failure: Option<string>): seq<Snapshot> {
    if failure.Some? then [ErrorSnapshot(failure.value)] else []
  }

  /** What the `chat` generator yields, and the calls it makes. */
  datatype ChatTrace = ChatTrace(snapshots: seq<Snapshot>, calls: seq<Request>)

  /** What `generate_response` returns or raises, and the calls it makes. */
  datatype Generation = Generation(result: Result<string, string>, calls: seq<Request>)

  /** `response.choices[0].message.content.strip()`, or what it raises. */
  function Answer(c: Completion): (r: Result<string, string>)
    ensures r.Ok? <==> c.Replied? && c.content.Some?
    ensures r.Ok? ==> r.value == Strip(c.content.value)
    ensures c.Raised? ==> r == Err(c.error)
    ensures c == Replied(None) ==> r == Err(NoneStripError)
  {
    match c
    case Replied(Some(text)) => Ok(Strip(text))
    case Replied(None) => Err(NoneStripError)
    case Raised(e) => Err(e)
  }

  // ---------------------------------------------------------------------------
  // The provider
  // ---------------------------------------------------------------------------

  /** A configured provider. Its fields are set once, by `Create`, and never
      change; `ollamaUrl` exists only for a local backend. */
  datatype ModelProvider = ModelProvider(provider: string, model: string, client: Client, ollamaUrl: Option<string>)
  {
    predicate Valid() {
      (provider == OpenAI <==> ollamaUrl.None?)
      && (ollamaUrl.Some? ==> client == Client(Some(ollamaUrl.value + "/v1"), Some(OllamaKey)))
      && (provider == OpenAI ==> client.baseUrl == None)
    }

    /** The streaming `chat` generator as a whole: the snapshots it yields,
        in order, and the backend calls it makes. */
    function ChatStream(message: string, systemPrompt: string, history: seq<Message>,
                        stream: Request -> Attempt): ChatTrace
      requires Valid()
    {
      var messages := ChatMessages(systemPrompt, history, message);
      var qwen := IsQwen3(model);
      var primary := Request(client, model, messages);
      var first := stream(primary);
      var yielded := Run(first.chunks, qwen).emitted;
      match first.failure
      case None => ChatTrace(yielded, [primary])
      case Some(e) =>
        if provider != OpenAI then
          var fallback := Request(FallbackClient(ollamaUrl.value), model, messages);
          var second := stream(fallback);
          ChatTrace(yielded + Run(second.chunks, qwen).emitted + ErrorTail(second.failure), [primary, fallback])
        else
          ChatTrace(yielded + [ErrorSnapshot(e)], [primary])
    }

    /** `chat`: streams from the primary client; when that raises, a local
        backend restarts once on `/api` from empty accumulators, and a cloud
        backend yields one error snapshot. Nothing escapes as an exception. */
    method Chat(message: string, systemPrompt: string, history: seq<Message>,
                stream: Request -> Attempt) returns (snapshots: seq<Snapshot>, calls: seq<Request>)
      requires Valid()
      ensures ChatTrace(snapshots, calls) == ChatStream(message, systemPrompt, history, stream)
    {
      var messages := ChatMessages(systemPrompt, history, message);
      var qwen := IsQwen3(model);
      var primary := Request(client, model, messages);
      calls := [primary];
      var first := stream(primary);
      snapshots := Accumulate(first.chunks, qwen);
      if first.failure.Some? {
        if provider != OpenAI {
          var fallback := Request(FallbackClient(ollamaUrl.value), model, messages);
          calls := calls + [fallback];
          var second := stream(fallback);
          var more := Accumulate(second.chunks, qwen);
          snapshots := snapshots + more;
          if second.failure.Some? {
            snapshots := snapshots + [ErrorSnapshot(second.failure.value)];
          }
        } else {
          snapshots := snapshots + [ErrorSnapshot(first.failure.value)];
        }
      }
    }

    /** `chat` calls the backend once, and a second time only for a local
        backend whose first stream raised; the second call goes to `/api`
        with the same model and the same messages. */
    lemma ChatRetriesOnce(message: string, systemPrompt: string, history: seq<Message>,
                          stream: Request -> Attempt)
      requires Valid()
      ensures var t := ChatStream(message, systemPrompt, history, stream);
        1 <= |t.calls| <= 2
        && (forall r :: r in t.calls ==> r.model == model && r.messages == ChatMessages(systemPrompt, history, message))
        && t.calls[0].client == client
        && (|t.calls| == 2 <==> provider != OpenAI && stream(t.calls[0]).failure.Some?)
        && (|t.calls| == 2 ==> t.calls[1].client == FallbackClient(ollamaUrl.value))
    {
    }

    /** `chat` yields the snapshots of its first attempt; after a failure, a
        cloud backend adds one error snapshot, and a local backend adds the
        snapshots of its fallback, accumulated from empty, and one error
        snapshot if the fallback fails too. */
    lemma ChatYields(message: string, systemPrompt: string, history: seq<Message>,
                     stream: Request -> Attempt)
      requires Valid()
      ensures var t := ChatStream(message, systemPrompt, history, stream);
        var first := stream(t.calls[0]);
        var qwen := IsQwen3(model);
        if |t.calls| == 1 then
          t.snapshots == Run(first.chunks, qwen).emitted + ErrorTail(first.failure)
        else
          var second := stream(t.calls[1]);
          t.snapshots == Run(first.chunks, qwen).emitted + Run(second.chunks, qwen).emitted + ErrorTail(second.failure)
    {
    }

    /** `generate_response`: one system/user request; the stripped answer, or
        one retry on `/api` for a local backend, or the original exception
        re-raised for the cloud backend. */
    function GenerateResponse(prompt: string, systemPrompt: string, complete: Request -> Completion): (g: Generation)
      requires Valid()
      ensures 1 <= |g.calls| <= 2
      ensures forall r :: r in g.calls ==>
        r.model == model && r.messages == [Message(System, systemPrompt), Message(User, prompt)]
      ensures g.calls[0].client == client
      ensures |g.calls| == 2 <==> provider != OpenAI && Answer(complete(g.calls[0])).Err?
      ensures |g.calls| == 2 ==> g.calls[1].client == FallbackClient(ollamaUrl.value)
      ensures g.result == Answer(complete(g.calls[|g.calls| - 1]))
    {
      var messages := [Message(System, systemPrompt), Message(User, prompt)];
      var primary := Request(client, model, messages);
      match Answer(complete(primary))
      case Ok(text) => Generation(Ok(text), [primary])
      case Err(e) =>
        if provider != OpenAI then
          var fallback := Request(FallbackClient(ollamaUrl.value), model, messages);
          Generation(Answer(complete(fallback)), [primary, fallback])
        else
          Generation(Err(e), [primary])
    }
  }

  /** `ModelProvider(provider, model)`: `__init__` with `_init_client`. */
  function Create(provider: string, model: Option<string>, env: Env): (mp: ModelProvider)
    ensures mp.Valid()
    ensures mp.provider == provider
    ensures model.Some? ==> mp.model == model.value
    ensures model.None? && provider == OpenAI ==> mp.model == "gpt-4o-mini"
    ensures model.None? && provider != OpenAI ==> mp.model == "llama3.2"
    ensures mp.client == PrimaryClient(provider, env)
    ensures provider != OpenAI ==> mp.ollamaUrl == Some(env.ollamaUrl.GetOr(DefaultOllamaUrl))
  {
    var name := if model.None? then (if provider == OpenAI then "gpt-4o-mini" else "llama3.2") else model.value;
    if provider == OpenAI then
      ModelProvider(provider, name, Client(None, env.openaiApiKey), None)
    else
      var base := env.ollamaUrl.GetOr(DefaultOllamaUrl);
      ModelProvider(provider, name, Client(Some(base + "/v1"), Some(OllamaKey)), Some(base))
  }

  /** A local backend's fallback starts again from empty accumulators: after
      a first attempt that showed "Hello" and failed, a fallback that streams
      "Hi" makes the shown content shrink to "Hi". */
  lemma LocalRestartStartsOver(mp: ModelProvider, message: string, systemPrompt: string,
                               history: seq<Message>, stream: Request -> Attempt)
    requires mp.Valid() && mp.provider != OpenAI && !IsQwen3(mp.model)
    requires var messages := ChatMessages(systemPrompt, history, message);
      stream(Request(mp.client, mp.model, messages)) == Attempt([Chunk(Some(Delta(None, Some("Hello"))))], Some("timeout"))
      && stream(Request(FallbackClient(mp.ollamaUrl.value), mp.model, messages))
         == Attempt([Chunk(Some(Delta(None, Some("Hi"))))], None)
    ensures mp.ChatStream(message, systemPrompt, history, stream).snapshots == [Plain("Hello"), Plain("Hi")]
  {
    OneChunk("Hello");
    OneChunk("Hi");
  }

  lemma OneChunk(text: string)
    ensures Run([Chunk(Some(Delta(None, Some(text))))], false).emitted == [Plain(text)]
  {
    var chunks := [Chunk(Some(Delta(None, Some(text))))];
    assert chunks[..0] == [];
    assert "" + text == text;
  }
}
