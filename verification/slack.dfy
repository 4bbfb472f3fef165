/** The Slack side of the bot. Every read the core makes of Slack is one
    field of `Directory`, an answer fixed for one run; every write goes
    through `Client.PostMessage`, which records the request in `outbox`. */
module Slack {
  import opened Models

  /** The parameters of conversations.history: channel, window bounds in
      Unix seconds, and the maximum number of messages wanted. */
  datatype HistoryQuery = HistoryQuery(channelID: string, oldest: int, latest: int, limit: nat)

  /** Answers of the Slack Web API, None standing for an error. */
  datatype Directory = Directory(
    getUsers: Option<seq<SlackUser>>,
    getUserByEmail: string -> Option<SlackUser>,
    getUserInfo: string -> Option<SlackUser>,
    // user ID to the ID of the direct-message channel with that user
    openConversation: string -> Option<string>,
    getConversationHistory: HistoryQuery -> Option<seq<Message>>,
    // (channel ID, message timestamp) to the reactions on that message
    getReactions: (string, string) -> Option<seq<Reaction>>)

  /** The shared Slack client, seen through what it sends. */
  class Client {
    /** Every PostMessage request made so far, oldest first, whether or not
        Slack accepted it. */
    var outbox: seq<Post>

    constructor ()
      ensures outbox == []
    {
      outbox := [];
    }

    /** chat.postMessage: one request to `target`; a threaded reply when
        `threadTs` is given. */
    method PostMessage(target: string, text: string, threadTs: Option<string>)
      modifies this
      ensures outbox == old(outbox) + [Post(target, text, threadTs)]
    {
      outbox := outbox + [Post(target, text, threadTs)];
    }
  }
}
