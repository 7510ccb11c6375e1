/** The Gemini chat room (`src/chatRoom_gemini.ts`): the Durable Object that owns one Slack
    channel's message table and answers each event through Gemini, with a quota on replies. */
module GeminiChatRoom {
  import opened Wrappers
  import opened Slack
  import opened MessageStore
  import opened TextCleaning

  /** Rows of history sent with each request: the `LIMIT 10` of the history query, which each
      chat room hard-codes in its own SQL. */
  const HISTORY_WINDOW: nat := 10

  const LIMIT_NOTICE := "\U{1F6D1} Conversation limit reached."
  const ERROR_NOTICE := "\U{26A0}\U{FE0F} I encountered an error processing that request."

  /** The `system_instruction` text: the instructions, then the strategy context under a header. */
  function SystemInstruction(instructions: string, strategyContext: string): (r: string)
    ensures |r| == |instructions| + |strategyContext| + 18
    ensures r[..|instructions|] == instructions
    ensures r[|r| - |strategyContext|..] == strategyContext
  {
    instructions + "\n\n=== CONTEXT ===\n" + strategyContext
  }

  /** Gemini's chat schema knows only `user` and `model`: `assistant` becomes `model`, and so
      does any other value that is not `user`. */
  function NormalizeRole(role: string): (r: string)
    ensures r == "user" || r == "model"
    ensures r == "user" <==> role == "user"
  {
    var mapped := if role == "assistant" then "model" else role;
    if mapped != "user" && mapped != "model" then "model" else mapped
  }

  /** `.filter(msg => msg.role !== 'system')`. */
  function DropSystem(history: seq<Message>): (r: seq<Message>)
    ensures |r| <= |history|
    ensures forall m :: m in r <==> m in history && m.role != "system"
  {
    if history == [] then []
    else (if history[0].role == "system" then [] else [history[0]]) + DropSystem(history[1..])
  }

  /** `.map(...)`: each message with its role normalised and its text kept. */
  function NormalizeRoles(history: seq<Message>): (r: seq<Message>)
    ensures |r| == |history|
    ensures forall i :: 0 <= i < |r| ==>
      r[i].content == history[i].content && (r[i].role == "user" <==> history[i].role == "user")
  {
    seq(|history|, i requires 0 <= i < |history| => Message(NormalizeRole(history[i].role), history[i].content))
  }

  /** The `contents` of the request: history without system rows, roles normalised. */
  function GeminiContents(history: seq<Message>): (r: seq<Message>)
    ensures |r| <= |history|
    ensures forall i :: 0 <= i < |r| ==> r[i].role == "user" || r[i].role == "model"
  {
    NormalizeRoles(DropSystem(history))
  }

  lemma {:induction false} DropSystemAppend(a: seq<Message>, b: seq<Message>)
    ensures DropSystem(a + b) == DropSystem(a) + DropSystem(b)
    decreases |a|
  {
    if a == [] {
      assert a + b == b;
    } else {
      assert (a + b)[0] == a[0];
      assert (a + b)[1..] == a[1..] + b;
      DropSystemAppend(a[1..], b);
    }
  }

  /** The role mapping works message by message and keeps their order: a system message vanishes,
      any other keeps its text and gets its normalised role. */
  lemma GeminiContentsAppend(a: seq<Message>, b: seq<Message>)
    ensures GeminiContents(a + b) == GeminiContents(a) + GeminiContents(b)
  {
    DropSystemAppend(a, b);
    var da, db := DropSystem(a), DropSystem(b);
    var joined, left, right := NormalizeRoles(da + db), NormalizeRoles(da), NormalizeRoles(db);
    forall i | 0 <= i < |joined| ensures joined[i] == (left + right)[i] {
      if i < |da| {
        assert (da + db)[i] == da[i];
        assert joined[i] == Message(NormalizeRole(da[i].role), da[i].content) == left[i];
      } else {
        assert (da + db)[i] == db[i - |da|];
        assert joined[i] == Message(NormalizeRole(db[i - |da|].role), db[i - |da|].content) == right[i - |da|];
      }
    }
  }

  lemma GeminiContentsSingle(m: Message)
    ensures GeminiContents([m]) == if m.role == "system" then [] else [Message(NormalizeRole(m.role), m.content)]
  {
    assert [m][1..] == [];
  }

  /** A history without system messages passes the filter whole. */
  lemma {:induction false} DropSystemKeepsAll(history: seq<Message>)
    requires forall i :: 0 <= i < |history| ==> history[i].role != "system"
    ensures DropSystem(history) == history
    decreases |history|
  {
    if history != [] {
      var rest := history[1..];
      assert forall i :: 0 <= i < |rest| ==> rest[i] == history[i + 1];
      DropSystemKeepsAll(rest);
      assert history == [history[0]] + rest;
    }
  }

  /** With no system message in the history, nothing is dropped: texts stay in place, `user`
      stays `user`, `assistant` and every other role becomes `model`. */
  lemma GeminiContentsWithoutSystem(history: seq<Message>)
    requires forall i :: 0 <= i < |history| ==> history[i].role != "system"
    ensures |GeminiContents(history)| == |history|
    ensures forall i :: 0 <= i < |history| ==>
      GeminiContents(history)[i].content == history[i].content
      && (GeminiContents(history)[i].role == "user" <==> history[i].role == "user")
  {
    DropSystemKeepsAll(history);
  }

  /** The body sent to `generateContent`; `generationConfig.temperature` is left out. */
  datatype GeminiRequest = GeminiRequest(systemInstruction: string, contents: seq<Message>)

  /** What the `generateContent` call gave back: the text of the first candidate, a response
      with no candidates, or an exception (the `fetch` rejected or the body was not JSON). */
  datatype GeminiAnswer = Candidate(text: string) | NoCandidates | Threw

  /** How `handleMessage` ended. `Crashed`: the provider call threw, and the exception leaves the
      method with nothing posted. */
  datatype Handled = LimitReached | ProviderFailed | Crashed | Replied(reply: string)

  class ChatRoom {
    /** The channel's `messages` table in Durable Object storage. */
    const log: MessageLog
    /** `MESSAGES_LIMIT`: how many `model` rows the channel may hold before it is refused. */
    const messagesLimit: nat
    /** `SYSTEM_INSTRUCTIONS` and `STRATEGY_CONTEXT`, the fixed prompt texts. */
    const instructions: string
    const strategyContext: string
    /** Every `chat.postMessage` call this room made, in order. */
    var posts: seq<Post>

    ghost predicate Valid()
      reads this, log
    {
      log.Valid()
    }

    constructor (storage: MessageLog, limit: nat, instructions: string, strategyContext: string)
      requires storage.Valid()
      ensures Valid() && log == storage && messagesLimit == limit && posts == []
      ensures this.instructions == instructions && this.strategyContext == strategyContext
    {
      log, messagesLimit := storage, limit;
      this.instructions, this.strategyContext := instructions, strategyContext;
      posts := [];
    }

    method PostToSlack(channel: string, text: string)
      modifies this
      ensures posts == old(posts) + [Post(channel, text)]
    {
      posts := posts + [Post(channel, text)];
    }

    /** Handles one message event. `provider` is Gemini's answer to `request`. `userTime` and
        `replyTime` are the two `Date.now()` readings. */
    method HandleMessage(event: Event, provider: GeminiAnswer, userTime: int, replyTime: int)
      returns (outcome: Handled, request: Option<GeminiRequest>)
      requires Valid()
      modifies this, log
      ensures Valid()
      // Quota gate: at or over the limit, one notice and no row.
      ensures CountRole(old(log.rows), "model") >= messagesLimit ==>
        outcome == LimitReached && request == None
        && log.rows == old(log.rows) && log.nextId == old(log.nextId)
        && posts == old(posts) + [Post(event.channel, LIMIT_NOTICE)]
      // Otherwise what Converse does, with the input cleaned of mentions and trimmed.
      ensures CountRole(old(log.rows), "model") < messagesLimit ==>
        ConverseEffect(old(log.rows), old(log.nextId), old(posts), event.channel, CleanText(event.text),
                       provider, userTime, replyTime, outcome, request)
      // Each event adds at most one `model` row, and none once the limit is reached.
      ensures CountRole(log.rows, "model") <= CountRole(old(log.rows), "model") + 1
      ensures CountRole(old(log.rows), "model") <= messagesLimit ==> CountRole(log.rows, "model") <= messagesLimit
    {
      var responseCount := log.Count("model");
      if responseCount >= messagesLimit {
        PostToSlack(event.channel, LIMIT_NOTICE);
        outcome, request := LimitReached, None;
        return;
      }
      var cleanText := CleanText(event.text);
      outcome, request := Converse(event.channel, cleanText, provider, userTime, replyTime);
    }

    /** What happens to the table, the posts and the returned values once the quota gate let
        `cleanText` through. */
    ghost predicate ConverseEffect(rows0: seq<Row>, next0: nat, posts0: seq<Post>, channel: string,
                                   cleanText: string, provider: GeminiAnswer, userTime: int, replyTime: int,
                                   outcome: Handled, request: Option<GeminiRequest>)
      reads this, log
    {
      var userRow := Row(next0, "user", cleanText, userTime);
      // The user row goes in first, under a fresh id, and the request carries the last ten rows
      // (the new one included) with roles normalised.
      request == Some(GeminiRequest(SystemInstruction(instructions, strategyContext),
                                    GeminiContents(Window(rows0 + [userRow], HISTORY_WINDOW))))
      && match provider
         // The call threw: the user row stays without a reply and nothing is posted.
         case Threw =>
           outcome == Crashed && log.rows == rows0 + [userRow] && log.nextId == next0 + 1
           && posts == posts0
         // No candidates: an error notice, and the user row stays without a reply.
         case NoCandidates =>
           outcome == ProviderFailed && log.rows == rows0 + [userRow] && log.nextId == next0 + 1
           && posts == posts0 + [Post(channel, ERROR_NOTICE)]
         // A reply: stored as a `model` row right after the user row, and posted once.
         case Candidate(reply) =>
           outcome == Replied(reply)
           && log.rows == rows0 + [userRow] + [Row(next0 + 1, "model", reply, replyTime)]
           && log.nextId == next0 + 2
           && posts == posts0 + [Post(channel, reply)]
    }

    /** Steps 2 to 7 of `handleMessage`: store the cleaned text, read the history window, map the
        roles, and store and post the reply or post the error notice. */
    method Converse(channel: string, cleanText: string, provider: GeminiAnswer, userTime: int, replyTime: int)
      returns (outcome: Handled, request: Option<GeminiRequest>)
      requires Valid()
      modifies this, log
      ensures Valid()
      ensures ConverseEffect(old(log.rows), old(log.nextId), old(posts), channel, cleanText,
                             provider, userTime, replyTime, outcome, request)
      ensures CountRole(log.rows, "model") == CountRole(old(log.rows), "model") + (if provider.Candidate? then 1 else 0)
    {
      var userRow := Row(log.nextId, "user", cleanText, userTime);
      ghost var before := log.rows;
      var _ := log.Insert("user", cleanText, userTime);
      ghost var withUser := log.rows;
      CountRoleAppendOne(before, userRow, "model");

      var historyCursor := log.Recent(HISTORY_WINDOW);
      var historyRows := Reverse(historyCursor);
      assert historyRows == Window(withUser, HISTORY_WINDOW);
      var contents := GeminiContents(historyRows);
      request := Some(GeminiRequest(SystemInstruction(instructions, strategyContext), contents));

      if provider.Threw? {
        outcome := Crashed;
        return;
      }
      if provider.NoCandidates? {
        PostToSlack(channel, ERROR_NOTICE);
        outcome := ProviderFailed;
        return;
      }

      var reply := provider.text;
      var modelId := log.Insert("model", reply, replyTime);
      CountRoleAppendOne(withUser, Row(modelId, "model", reply, replyTime), "model");
      PostToSlack(channel, reply);
      outcome := Replied(reply);
    }
  }
}
