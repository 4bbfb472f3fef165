/** Plain data of the bot: the records of models/struct.go, the Slack and Jira
    values the core reads, the outbound post, and the process configuration. */
module Models {

  datatype Option<+T> = None | Some(value: T) {
    function GetOr(default: T): T {
      match this
      case Some(v) => v
      case None => default
    }
  }

  /** A Jira issue reduced to what the bot shows (models.Task). */
  datatype Task = Task(key: string, summary: string, status: string)

  /** One element of JiraSearchResult.Issues, with the nested `Fields`,
      `Status` and `Assignee` records flattened. */
  datatype Issue = Issue(key: string, summary: string, statusName: string, assigneeEmail: string)

  datatype JiraSearchResult = JiraSearchResult(issues: seq<Issue>)

  /** One element of the Jira users-search answer. */
  datatype JiraUser = JiraUser(emailAddress: string)

  /** What `http.DefaultClient.Do` followed by `json.Unmarshal` yields:
      a transport error, or a status code together with the decoded body
      (None when the body does not decode). */
  datatype HttpResult<T> = TransportError | HttpResponse(statusCode: int, decoded: Option<T>)

  const StatusOK := 200

  /** Success exactly when there is no transport error, the status is 200
      and the body decodes. */
  predicate Ok<T>(r: HttpResult<T>) {
    r.HttpResponse? && r.statusCode == StatusOK && r.decoded.Some?
  }

  /** A Slack user: its ID and `Profile.Email`. */
  datatype SlackUser = SlackUser(id: string, email: string)

  /** A message of a conversation history. */
  datatype Message = Message(text: string, timestamp: string)

  /** An emoji reaction on a message, with the IDs of the users who reacted. */
  datatype Reaction = Reaction(name: string, users: seq<string>)

  /** One outbound `PostMessage` request: target channel or user, text, and
      the thread timestamp when it is a threaded reply. */
  datatype Post = Post(target: string, text: string, threadTs: Option<string>)

  /** The environment variables the core reads. */
  datatype Config = Config(golangChannelID: string, leaveChannelID: string, jiraBaseURL: string)

  /** Regrouping a concatenation of three sequences. */
  lemma AppendAssoc<T>(a: seq<T>, b: seq<T>, c: seq<T>)
    ensures a + (b + c) == a + b + c
  {
  }
}
