/** The pieces of the Slack Events API and Web API that the worker and the chat rooms touch. */
module Slack {
  import opened Wrappers

  /** The `event` object of an `event_callback` payload, reduced to the fields the code reads:
      the message text, the channel it was posted in, and `bot_id`, present when a bot wrote it. */
  datatype Event = Event(text: string, channel: string, botId: Option<string>)

  /** One `chat.postMessage` call: the channel and the text sent to it. */
  datatype Post = Post(channel: string, text: string)

  /** JavaScript truthiness of `event?.bot_id` for a string field: present and not empty. */
  predicate IsBotEvent(e: Event)
  {
    e.botId.Some? && e.botId.value != ""
  }
}
