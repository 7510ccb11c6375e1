/** The OpenAI chat room (`src/chatRoom.ts`), the earlier version of the per-channel Durable
    Object: raw text is stored, the history goes to chat completions behind one system message,
    and replies are capped at a hard-coded 100 `assistant` rows. */
module OpenAiChatRoom {
  import opened Wrappers
  import opened Slack
  import opened MessageStore

  /** The hard-coded cap on `assistant` rows. */
  const RESPONSE_LIMIT: nat := 100
  /** Rows of history sent with each request: the `LIMIT 10` of the history query, which each
      chat room hard-codes in its own SQL. */
  const HISTORY_WINDOW: nat := 10

  const LIMIT_NOTICE := "\U{1F6D1} Conversation limit of 100 responses reached. Please start a new channel."

  /** The system message text: the instructions, then the strategy context between markers. */
  function SystemPrompt(instructions: string, strategyContext: string): (r: string)
    ensures |r| == |instructions| + |strategyContext| + 44
    ensures r[..|instructions|] == instructions
    ensures r[|r| - |strategyContext| - 20..] == strategyContext + "\n=== CONTEXT END ==="
  {
    instructions + "\n\n=== CONTEXT START ===\n" + strategyContext + "\n=== CONTEXT END ==="
  }

  /** `[{ role: "system", content: prompt }, ...history]`. */
  function ChatMessages(prompt: string, history: seq<Message>): (r: seq<Message>)
    ensures |r| == |history| + 1 && r[0] == Message("system", prompt) && r[1..] == history
  {
    [Message("system", prompt)] + history
  }

  /** The message list sent for a table `rows`: one system entry, then the last `min(10, n)` rows
      unchanged and in id order, so `1 + min(10, n)` entries whose last is the newest row. */
  lemma ChatMessagesShape(prompt: string, rows: seq<Row>)
    requires rows != []
    ensures var ms := ChatMessages(prompt, Window(rows, HISTORY_WINDOW));
      |ms| == 1 + Min(HISTORY_WINDOW, |rows|)
      && ms[0] == Message("system", prompt)
      && ms[1..] == Window(rows, HISTORY_WINDOW)
      && ms[|ms| - 1] == Columns(rows[|rows| - 1])
  {
    var ms := ChatMessages(prompt, Window(rows, HISTORY_WINDOW));
    assert ms[1..] == Window(rows, HISTORY_WINDOW);
  }

  /** How `handleMessage` ended. `Crashed`: the provider call threw, or reading `data.choices[0]`
      threw because the response had no choice; the exception leaves the method and nothing more
      happens. */
  datatype Handled = LimitReached | Crashed | Replied(reply: string)

  class ChatRoom {
    /** The channel's `messages` table in Durable Object storage. */
    const log: MessageLog
    /** `SYSTEM_INSTRUCTIONS` and `STRATEGY_CONTEXT`, the fixed prompt texts. */
    const instructions: string
    const strategyContext: string
    /** Every `chat.postMessage` call this room made, in order. */
    var posts: seq<Post>

    ghost predicate Valid()
      reads this, log
    {
      log.Valid()
    }

    constructor (storage: MessageLog, instructions: string, strategyContext: string)
      requires storage.Valid()
      ensures Valid() && log == storage && posts == []
      ensures this.instructions == instructions && this.strategyContext == strategyContext
    {
      log := storage;
      this.instructions, this.strategyContext := instructions, strategyContext;
      posts := [];
    }

    method PostToSlack(channel: string, text: string)
      modifies this
      ensures posts == old(posts) + [Post(channel, text)]
    {
      posts := posts + [Post(channel, text)];
    }

    /** Handles one message event. `provider` is OpenAI's answer to `request`: the content of the
        first choice, or None when the response has none or the call threw (both end the same way). `userTime` and `replyTime` are the two
        `Date.now()` readings. */
    method HandleMessage(event: Event, provider: Option<string>, userTime: int, replyTime: int)
      returns (outcome: Handled, request: Option<seq<Message>>)
      requires Valid()
      modifies this, log
      ensures Valid()
      // Quota gate: at 100 replies or more, one notice and no row.
      ensures CountRole(old(log.rows), "assistant") >= RESPONSE_LIMIT ==>
        outcome == LimitReached && request == None
        && log.rows == old(log.rows) && log.nextId == old(log.nextId)
        && posts == old(posts) + [Post(event.channel, LIMIT_NOTICE)]
      // Otherwise what Converse does with the text as received.
      ensures CountRole(old(log.rows), "assistant") < RESPONSE_LIMIT ==>
        ConverseEffect(old(log.rows), old(log.nextId), old(posts), event.channel, event.text,
                       provider, userTime, replyTime, outcome, request)
      // Each event adds at most one `assistant` row, and none once the cap is reached.
      ensures CountRole(log.rows, "assistant") <= CountRole(old(log.rows), "assistant") + 1
      ensures CountRole(old(log.rows), "assistant") <= RESPONSE_LIMIT ==> CountRole(log.rows, "assistant") <= RESPONSE_LIMIT
    {
      var responseCount := log.Count("assistant");
      if responseCount >= RESPONSE_LIMIT {
        PostToSlack(event.channel, LIMIT_NOTICE);
        outcome, request := LimitReached, None;
        return;
      }
      outcome, request := Converse(event.channel, event.text, provider, userTime, replyTime);
    }

    /** What happens to the table, the posts and the returned values once the quota gate let
        `text` through. */
    ghost predicate ConverseEffect(rows0: seq<Row>, next0: nat, posts0: seq<Post>, channel: string,
                                   text: string, provider: Option<string>, userTime: int, replyTime: int,
                                   outcome: Handled, request: Option<seq<Message>>)
      reads this, log
    {
      var userRow := Row(next0, "user", text, userTime);
      // The text is stored verbatim first, and the request is the system message followed by
      // the last ten rows, the new one included.
      request == Some(ChatMessages(SystemPrompt(instructions, strategyContext),
                                   Window(rows0 + [userRow], HISTORY_WINDOW)))
      && match provider
         // No guard on the response: without a choice the user row stays unanswered and
         // nothing is posted.
         case None =>
           outcome == Crashed && log.rows == rows0 + [userRow] && log.nextId == next0 + 1
           && posts == posts0
         // A reply: stored as an `assistant` row right after the user row, and posted once.
         case Some(reply) =>
           outcome == Replied(reply)
           && log.rows == rows0 + [userRow] + [Row(next0 + 1, "assistant", reply, replyTime)]
           && log.nextId == next0 + 2
           && posts == posts0 + [Post(channel, reply)]
    }

    /** Steps 2 to 6 of `handleMessage`: store the text, read the history window, and store and
        post the reply. */
    method Converse(channel: string, text: string, provider: Option<string>, userTime: int, replyTime: int)
      returns (outcome: Handled, request: Option<seq<Message>>)
      requires Valid()
      modifies this, log
      ensures Valid()
      ensures ConverseEffect(old(log.rows), old(log.nextId), old(posts), channel, text,
                             provider, userTime, replyTime, outcome, request)
      ensures CountRole(log.rows, "assistant") == CountRole(old(log.rows), "assistant") + (if provider.Some? then 1 else 0)
    {
      var userRow := Row(log.nextId, "user", text, userTime);
      ghost var before := log.rows;
      var _ := log.Insert("user", text, userTime);
      ghost var withUser := log.rows;
      CountRoleAppendOne(before, userRow, "assistant");

      var historyCursor := log.Recent(HISTORY_WINDOW);
      var history := Reverse(historyCursor);
      assert history == Window(withUser, HISTORY_WINDOW);
      request := Some(ChatMessages(SystemPrompt(instructions, strategyContext), history));

      if provider.None? {
        outcome := Crashed;
        return;
      }

      var reply := provider.value;
      var assistantId := log.Insert("assistant", reply, replyTime);
      CountRoleAppendOne(withUser, Row(assistantId, "assistant", reply, replyTime), "assistant");
      PostToSlack(channel, reply);
      outcome := Replied(reply);
    }
  }
}
