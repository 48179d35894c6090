/**
 * The chat handler of the top-level `cli.py`: `chat_fn` converts the chat
 * widget's `[user, assistant]` pairs into role messages, runs `chat` and
 * keeps the last value it yields. Its `generate_response` wrapper and its
 * summarize prompt are the same as those of `src/cli.py` and are modelled
 * once, in module `Cli`.
 */
module RootCli {
  import opened Wrappers
  import opened Streaming
  import opened Provider

  /** The role messages for a list of `[user, assistant]` pairs: two per
      pair, user first, in pair order. */
  function PairMessages(pairs: seq<(string, string)>): (ms: seq<Message>)
    ensures |ms| == 2 * |pairs|
    ensures forall i :: 0 <= i < |pairs| ==>
      ms[2 * i] == Message(User, pairs[i].0) && ms[2 * i + 1] == Message(Assistant, pairs[i].1)
  {
    if pairs == [] then []
    else
      var init := PairMessages(pairs[..|pairs| - 1]);
      var last := pairs[|pairs| - 1];
      init + [Message(User, last.0), Message(Assistant, last.1)]
  }

  /** The loop of `chat_fn` that builds `model_history`. */
  method ConvertPairs(pairs: seq<(string, string)>) returns (modelHistory: seq<Message>)
    ensures modelHistory == PairMessages(pairs)
  {
    modelHistory := [];
    for i := 0 to |pairs|
      invariant modelHistory == PairMessages(pairs[..i])
    {
      assert pairs[..i + 1][..i] == pairs[..i];
      var (userMsg, assistantMsg) := pairs[i];
      modelHistory := modelHistory + [Message(User, userMsg)];
      modelHistory := modelHistory + [Message(Assistant, assistantMsg)];
    }
    assert pairs[..|pairs|] == pairs;
  }

  /** What `chat_fn` returns: the initial `""`, or the last snapshot
      dictionary itself (not its content string). */
  datatype ChatReply = EmptyText | LastSnapshot(snapshot: Snapshot)

  /** The loop of `chat_fn` that keeps the last yielded value. */
  method LastYielded(responses: seq<Snapshot>) returns (finalResponse: ChatReply)
    ensures responses == [] ==> finalResponse == EmptyText
    ensures responses != [] ==> finalResponse == LastSnapshot(responses[|responses| - 1])
  {
    finalResponse := EmptyText;
    for i := 0 to |responses|
      invariant i == 0 ==> finalResponse == EmptyText
      invariant i > 0 ==> finalResponse == LastSnapshot(responses[i - 1])
    {
      finalResponse := LastSnapshot(responses[i]);
    }
  }

  /** `chat_fn(message, history)`. */
  method ChatFn(mp: ModelProvider, systemPrompt: string, message: string, history: seq<(string, string)>,
                stream: Request -> Attempt) returns (reply: ChatReply)
    requires mp.Valid()
    ensures var snapshots := mp.ChatStream(message, systemPrompt, PairMessages(history), stream).snapshots;
      reply == if snapshots == [] then EmptyText else LastSnapshot(snapshots[|snapshots| - 1])
  {
    var modelHistory := ConvertPairs(history);
    var responses, calls := mp.Chat(message, systemPrompt, modelHistory, stream);
    assert responses == mp.ChatStream(message, systemPrompt, PairMessages(history), stream).snapshots;
    reply := LastYielded(responses);
  }

  /** A cloud backend whose stream fails makes `chat_fn` return the error
      snapshot, whatever was yielded before it. */
  lemma CloudFailureReply(mp: ModelProvider, systemPrompt: string, message: string,
                          history: seq<(string, string)>, stream: Request -> Attempt, error: string)
    requires mp.Valid() && mp.provider == OpenAI
    requires stream(Request(mp.client, mp.model, ChatMessages(systemPrompt, PairMessages(history), message))).failure == Some(error)
    ensures var snapshots := mp.ChatStream(message, systemPrompt, PairMessages(history), stream).snapshots;
      snapshots != [] && snapshots[|snapshots| - 1] == Plain(ErrorPrefix + error)
  {
  }
}
