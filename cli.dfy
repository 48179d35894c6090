/**
 * The command-line front end in `src/cli.py`: the `generate_response`
 * wrapper, the `summarize` prompt, and the two chat handlers that keep the
 * chat history (`user_message`, `bot_message`).
 */
module Cli {
  import opened Wrappers
  import opened PyStr
  import opened Streaming
  import opened Provider

  // ---------------------------------------------------------------------------
  // generate_response and the summarize prompt
  // ---------------------------------------------------------------------------

  /** `generate_response(prompt, system_prompt, provider, model)`: builds a
      provider and hands back what its `generate_response` returns or raises. */
  function GenerateResponse(prompt: string, systemPrompt: string, provider: string, model: Option<string>,
                            env: Env, complete: Request -> Completion): (r: Result<string, string>)
    ensures r == Create(provider, model, env).GenerateResponse(prompt, systemPrompt, complete).result
  {
    var mp := Create(provider, model, env);
    mp.GenerateResponse(prompt, systemPrompt, complete).result
  }

  /** A local backend with no model given asks `llama3.2` on `/v1` and its
      answer comes back without the whitespace around it. */
  lemma LocalAnswerIsStripped(prompt: string, systemPrompt: string, env: Env, complete: Request -> Completion,
                              pre: string, post: string)
    requires AllSpace(pre) && AllSpace(post)
    requires prompt != [] && !IsSpace(prompt[|prompt| - 1])
    requires complete(Request(PrimaryClient("ollama", env), "llama3.2",
                              [Message(System, systemPrompt), Message(User, prompt)]))
             == Replied(Some(pre + "OK: " + prompt + post))
    ensures GenerateResponse(prompt, systemPrompt, "ollama", None, env, complete) == Ok("OK: " + prompt)
  {
    var x := "OK: " + prompt;
    var reply := pre + "OK: " + prompt + post;
    assert reply == pre + x + post;
    assert x[0] == 'O' && x[|x| - 1] == prompt[|prompt| - 1];
    StripPadded(pre, x, post);
    var primary := Request(PrimaryClient("ollama", env), "llama3.2", [Message(System, systemPrompt), Message(User, prompt)]);
    assert Answer(complete(primary)) == Ok(x);
    var mp := Create("ollama", None, env);
    assert mp.model == "llama3.2" && mp.client == PrimaryClient("ollama", env);
    var g := mp.GenerateResponse(prompt, systemPrompt, complete);
    assert g.calls[0] == primary;
  }

  /** A ticket comment as the helpdesk returns it: a JSON object. */
  type Comment = map<string, string>

  const SummarizeHeading := "Summarize the following ticket comments:"

  /** `c.get('body', '')` */
  function Body(c: Comment): string {
    if "body" in c then c["body"] else ""
  }

  /** `[c.get('body', '') for c in comments]` */
  function Bodies(comments: seq<Comment>): (bodies: seq<string>)
    ensures |bodies| == |comments|
    ensures forall i :: 0 <= i < |comments| ==> bodies[i] == Body(comments[i])
  {
    seq(|comments|, i requires 0 <= i < |comments| => Body(comments[i]))
  }

  /** The prompt of the `summarize` command. */
  function SummarizePrompt(comments: seq<Comment>): (prompt: string)
    ensures SummarizeHeading + "\n" <= prompt
    ensures comments == [] ==> prompt == SummarizeHeading + "\n"
  {
    SummarizeHeading + "\n" + Join("\n", Bodies(comments))
  }

  /** Each further comment adds a newline (none after the heading's own)
      and its body: this holds whatever the bodies contain. */
  lemma SummarizePromptSnoc(comments: seq<Comment>, c: Comment)
    ensures SummarizePrompt(comments + [c])
      == (if comments == [] then SummarizeHeading + "\n" else SummarizePrompt(comments) + "\n") + Body(c)
  {
    var bodies := Bodies(comments);
    assert Bodies(comments + [c]) == bodies + [Body(c)];
    JoinSnoc("\n", bodies, Body(c));
  }

  /** Split into lines, the prompt is the heading followed by one line per
      comment body in order; with no comments the heading is followed by one
      empty line, so no comments and one comment without a body give the
      same prompt. */
  lemma SummarizePromptLines(comments: seq<Comment>)
    requires forall i :: 0 <= i < |comments| ==> '\n' !in Body(comments[i])
    ensures Split(SummarizePrompt(comments), '\n')
      == [SummarizeHeading] + (if comments == [] then [""] else Bodies(comments))
  {
    var bodies := Bodies(comments);
    assert SummarizePrompt(comments) == SummarizeHeading + ['\n'] + Join(['\n'], bodies);
    SplitFirst(SummarizeHeading, '\n', Join(['\n'], bodies));
    if comments != [] {
      SplitJoin('\n', bodies);
    }
  }

  // ---------------------------------------------------------------------------
  // The chat handlers
  // ---------------------------------------------------------------------------

  /** The chat history list, which both handlers change in place. */
  class ChatHistory {
    var messages: seq<Message>

    constructor (messages: seq<Message>)
      ensures this.messages == messages
    {
      this.messages := messages;
    }
  }

  /** `user_message`: appends the user turn and hands back an empty input box
      together with the same list. */
  method UserMessage(message: string, history: ChatHistory) returns (cleared: string, same: ChatHistory)
    modifies history
    ensures cleared == "" && same == history
    ensures history.messages == old(history.messages) + [Message(User, message)]
  {
    history.messages := history.messages + [Message(User, message)];
    cleared := "";
    same := history;
  }

  const ThinkingOpen := "<div style='color: #888'><b>Thinking:</b><br>"
  const ThinkingClose := "</div>\n---\n"

  /** The text `bot_message` shows for one snapshot: the answer alone, or the
      grey "Thinking:" block above it when there is reasoning to show. */
  function Display(s: Snapshot): string {
    var reasoning := ReasoningText(s);
    if reasoning != "" then ThinkingOpen + reasoning + ThinkingClose + s.content else s.content
  }

  /** The answer always closes the display; the display is the answer alone
      exactly when there is no reasoning to show, and otherwise opens with the
      "Thinking:" block. */
  lemma DisplayShows(s: Snapshot)
    ensures var d := Display(s);
      |s.content| <= |d| && d[|d| - |s.content|..] == s.content
      && (d == s.content <==> ReasoningText(s) == "")
      && (ReasoningText(s) != "" ==> ThinkingOpen <= d)
      && (var r := ReasoningText(s);
          r != "" ==> d[|ThinkingOpen|..|ThinkingOpen| + |r|] == r
                      && d[|ThinkingOpen| + |r|..|ThinkingOpen| + |r| + |ThinkingClose|] == ThinkingClose
                      && |d| == |ThinkingOpen| + |r| + |ThinkingClose| + |s.content|)
  {
    var d := Display(s);
    if ReasoningText(s) != "" {
      assert |d| > |s.content|;
    }
  }

  /** The reply `bot_message` streams for `history`: the last entry's content
      as the message, every earlier entry as history. */
  function BotReplies(mp: ModelProvider, systemPrompt: string, history: seq<Message>,
                      stream: Request -> Attempt): seq<Snapshot>
    requires mp.Valid() && history != []
  {
    mp.ChatStream(history[|history| - 1].content, systemPrompt, history[..|history| - 1], stream).snapshots
  }

  /** When the last entry is the user's turn, the request `bot_message` sends
      is the system prompt followed by the whole history, unchanged. */
  lemma BotRequestIsHistory(systemPrompt: string, history: seq<Message>)
    requires history != [] && history[|history| - 1].role == User
    ensures ChatMessages(systemPrompt, history[..|history| - 1], history[|history| - 1].content)
      == [Message(System, systemPrompt)] + history
  {
    assert history == history[..|history| - 1] + [history[|history| - 1]];
  }

  /** `bot_message`: appends an assistant placeholder and overwrites its
      content with the display of each snapshot, yielding the list after each
      overwrite. `frames` is what the list holds at each yield. */
  method BotMessage(mp: ModelProvider, systemPrompt: string, history: ChatHistory,
                    stream: Request -> Attempt) returns (frames: seq<seq<Message>>)
    requires mp.Valid() && history.messages != []
    modifies history
    ensures var replies := BotReplies(mp, systemPrompt, old(history.messages), stream);
      Shows(old(history.messages), replies, frames, history.messages)
  {
    var userMessage := history.messages[|history.messages| - 1].content;
    var responseHistory := history.messages[..|history.messages| - 1];
    var replies, _ := mp.Chat(userMessage, systemPrompt, responseHistory, stream);
    frames := ShowReplies(history, replies);
  }

  /** `frames` shows `before` plus one assistant entry holding the display of
      each reply in turn, and the list ends on the last of them (or on the
      empty placeholder when there was no reply). */
  ghost predicate Shows(before: seq<Message>, replies: seq<Snapshot>, frames: seq<seq<Message>>, after: seq<Message>) {
    |frames| == |replies|
    && (forall k :: 0 <= k < |frames| ==> frames[k] == before + [Message(Assistant, Display(replies[k]))])
    && after == (if replies == [] then before + [Message(Assistant, "")] else frames[|frames| - 1])
  }

  /** The placeholder and the overwrite loop of `bot_message`. */
  method ShowReplies(history: ChatHistory, replies: seq<Snapshot>) returns (frames: seq<seq<Message>>)
    modifies history
    ensures Shows(old(history.messages), replies, frames, history.messages)
  {
    ghost var before := history.messages;
    history.messages := history.messages + [Message(Assistant, "")];
    frames := [];
    for k := 0 to |replies|
      invariant |frames| == k
      invariant forall j :: 0 <= j < k ==> frames[j] == before + [Message(Assistant, Display(replies[j]))]
      invariant history.messages == (if k == 0 then before + [Message(Assistant, "")] else frames[k - 1])
    {
      var display := Display(replies[k]);
      var last := |history.messages| - 1;
      history.messages := history.messages[last := history.messages[last].(content := display)];
      assert history.messages == before + [Message(Assistant, display)];
      frames := frames + [history.messages];
    }
  }
}
