/** event.go: the Slack Events webhook. It answers URL verification,
    and on a check-mark reaction thanks the user in the reacted thread and
    posts the user's plan for today to the Go channel. */
module Event {
  import opened Models
  import opened Text
  import opened Messages
  import Slack
  import Jira

  /** A JSON value as encoding/json decodes it into `interface{}`. */
  datatype Json =
    | JNull
    | JBool(b: bool)
    | JNumber(literal: string)
    | JString(s: string)
    | JArray(items: seq<Json>)
    | JObject(fields: map<string, Json>)

  /** The request body as the handler receives it. */
  datatype Body = ReadFailed | Malformed | Parsed(value: Json)

  datatype ResponseBody = NoBody | PlainText(text: string) | ErrorJson(error: string)

  datatype Response = Response(status: int, body: ResponseBody)

  const StatusBadRequest := 400
  const StatusInternalServerError := 500

  const ThanksText := "Thanks for acknowledging your tasks! You’re all set for today🚀"

  /** Where the handler goes with a body. */
  datatype Route =
    | Reject(error: string)
    | Verify(challenge: string)
    | Acknowledge(userID: string, ts: string)
    | Crash
    | Ignore

  /** json.Unmarshal into a `map[string]interface{}`: an object gives its
      fields, `null` leaves the map nil (every lookup then misses), and
      any other value is a decoding error. */
  function Payload(v: Json): Option<map<string, Json>> {
    match v
    case JObject(fields) => Some(fields)
    case JNull => Some(map[])
    case _ => None
  }

  /** A map lookup; a missing key reads as nil. */
  function Field(m: map<string, Json>, key: string): Option<Json> {
    if key in m then Some(m[key]) else None
  }

  /** Go's comparison of an `interface{}` with a string constant: true only
      for a string value equal to it. */
  predicate IsString(v: Option<Json>, s: string) {
    v == Some(JString(s))
  }

  /** The routing of handleSlackEvents. An unchecked type assertion on a
      missing or mistyped field panics: that is `Crash`. */
  function Classify(body: Body): Route {
    match body
    case ReadFailed => Reject("Failed to read request body")
    case Malformed => Reject("Invalid JSON")
    case Parsed(v) =>
      match Payload(v)
      case None => Reject("Invalid JSON")
      case Some(payload) =>
        if IsString(Field(payload, "type"), "url_verification") then
          match Field(payload, "challenge")
          case Some(JString(challenge)) => Verify(challenge)
          case _ => Reject("Invalid challenge format")
        else if IsString(Field(payload, "type"), "event_callback") then
          match Field(payload, "event")
          case Some(JObject(event)) =>
            if IsString(Field(event, "type"), "reaction_added") && IsString(Field(event, "reaction"), CheckMark) then
              ReactionRoute(event)
            else Ignore
          case _ => Crash
        else Ignore
  }

  /** The reacting user and the reacted message's timestamp. */
  function ReactionRoute(event: map<string, Json>): Route {
    match Field(event, "user")
    case Some(JString(userID)) =>
      (match Field(event, "item")
       case Some(JObject(item)) =>
         (match Field(item, "ts")
          case Some(JString(ts)) => Acknowledge(userID, ts)
          case _ => Crash)
       case _ => Crash)
    case _ => Crash
  }

  /** The answer for every route that posts nothing. gin.Recovery turns a
      panic into a bare 500. */
  function ImmediateResponse(route: Route): Response {
    match route
    case Reject(error) => Response(StatusBadRequest, ErrorJson(error))
    case Verify(challenge) => Response(StatusOK, PlainText(challenge))
    case Crash => Response(StatusInternalServerError, NoBody)
    case _ => Response(StatusOK, NoBody)
  }

  const PlanOpen := "*:memo: "
  const PlanClose := "'s Today's Plan:*\n"
  const NoPlansClose := " has no plans for today!\n"

  function PlanHeader(userID: string): string {
    PlanOpen + Mention(userID) + PlanClose
  }

  function NoPlansText(userID: string): string {
    Mention(userID) + NoPlansClose
  }

  /** The channel post: the plan with summaries in italics, or the
      no-plans line. */
  function PlanText(userID: string, tasks: seq<Task>): string {
    if |tasks| > 0 then PlanHeader(userID) + Bullets(tasks, true) else NoPlansText(userID)
  }

  /** The plan text, accumulated line by line. */
  method BuildPlanMessage(userID: string, tasks: seq<Task>) returns (msg: string)
    ensures msg == PlanText(userID, tasks)
  {
    if |tasks| > 0 {
      msg := AppendBullets(PlanHeader(userID), tasks, true);
    } else {
      msg := NoPlansText(userID);
    }
  }

  /** The tasks the handler finds for an e-mail: the entry of today's
      grouping, or none when the fetch failed or the e-mail holds none. */
  function TasksFor(cfg: Config, jira: Jira.JiraApi, email: string): seq<Task> {
    var tasksByUser := Jira.TodaysPlanTasks(cfg, jira).GetOr(map[]);
    if email in tasksByUser then tasksByUser[email] else []
  }

  /** The posts of an acknowledgment: the thread reply, then (when the
      reacting user can be looked up) the plan in the Go channel. */
  function AcknowledgePosts(cfg: Config, jira: Jira.JiraApi, dir: Slack.Directory,
                            userID: string, ts: string): seq<Post>
  {
    var reply := Post(userID, ThanksText, Some(ts));
    if dir.getUserInfo(userID).Some? then [reply, PlanPost(cfg, jira, dir.getUserInfo(userID).value)]
    else [reply]
  }

  /** The plan of `user`, posted to the Go channel. */
  function PlanPost(cfg: Config, jira: Jira.JiraApi, user: SlackUser): Post {
    Post(cfg.golangChannelID, PlanText(user.id, TasksFor(cfg, jira, user.email)), None)
  }

  /** The acknowledgment posts, appended one after the other. */
  lemma AppendedInOrder(outbox: seq<Post>, cfg: Config, jira: Jira.JiraApi, dir: Slack.Directory,
                        userID: string, ts: string)
    ensures dir.getUserInfo(userID).None? ==>
      outbox + AcknowledgePosts(cfg, jira, dir, userID, ts) == outbox + [Post(userID, ThanksText, Some(ts))]
    ensures dir.getUserInfo(userID).Some? ==>
      outbox + AcknowledgePosts(cfg, jira, dir, userID, ts) ==
      outbox + [Post(userID, ThanksText, Some(ts))] + [PlanPost(cfg, jira, dir.getUserInfo(userID).value)]
  {
    if dir.getUserInfo(userID).Some? {
      var reply := Post(userID, ThanksText, Some(ts));
      var plan := PlanPost(cfg, jira, dir.getUserInfo(userID).value);
      assert outbox + [reply, plan] == outbox + [reply] + [plan];
    }
  }

  /** sendMessageToThread: a reply in the thread of `ts`. */
  method SendMessageToThread(client: Slack.Client, userID: string, ts: string, msg: string)
    modifies client
    ensures client.outbox == old(client.outbox) + [Post(userID, msg, Some(ts))]
  {
    client.PostMessage(userID, msg, Some(ts));
  }

  /** The reaction branch of handleSlackEvents. A failed user lookup
      leaves a nil user whose profile is then read: a panic after the
      thread reply, answered 500. */
  method HandleCheckMark(client: Slack.Client, cfg: Config, jira: Jira.JiraApi, dir: Slack.Directory,
                         userID: string, ts: string)
    returns (resp: Response)
    modifies client
    ensures client.outbox == old(client.outbox) + AcknowledgePosts(cfg, jira, dir, userID, ts)
    ensures resp == Response(if dir.getUserInfo(userID).Some? then StatusOK else StatusInternalServerError, NoBody)
  {
    SendMessageToThread(client, userID, ts, ThanksText);
    var user := dir.getUserInfo(userID);
    AppendedInOrder(old(client.outbox), cfg, jira, dir, userID, ts);
    if user.None? {
      return Response(StatusInternalServerError, NoBody);
    }
    PostPlan(client, cfg, jira, user.value);
    resp := Response(StatusOK, NoBody);
  }

  /** The channel post that follows the thread reply. */
  method PostPlan(client: Slack.Client, cfg: Config, jira: Jira.JiraApi, user: SlackUser)
    modifies client
    ensures client.outbox == old(client.outbox) + [PlanPost(cfg, jira, user)]
  {
    var tasksByUser := Jira.FetchTodaysPlanTasks(cfg, jira);
    var tasks := if tasksByUser.Some? && user.email in tasksByUser.value
                 then tasksByUser.value[user.email] else [];
    var msg := BuildPlanMessage(user.id, tasks);
    client.PostMessage(cfg.golangChannelID, msg, None);
  }

  /** handleSlackEvents */
  method HandleSlackEvents(client: Slack.Client, cfg: Config, jira: Jira.JiraApi, dir: Slack.Directory,
                           body: Body)
    returns (resp: Response)
    modifies client
    ensures Classify(body).Acknowledge? ==>
      var route := Classify(body);
      && client.outbox == old(client.outbox) + AcknowledgePosts(cfg, jira, dir, route.userID, route.ts)
      && resp == Response(if dir.getUserInfo(route.userID).Some? then StatusOK else StatusInternalServerError, NoBody)
    ensures !Classify(body).Acknowledge? ==>
      client.outbox == old(client.outbox) && resp == ImmediateResponse(Classify(body))
  {
    var route := Classify(body);
    if route.Acknowledge? {
      resp := HandleCheckMark(client, cfg, jira, dir, route.userID, route.ts);
    } else {
      resp := ImmediateResponse(route);
    }
  }

  // ---------------------------------------------------------------------
  // Properties

  /** The plan lists every task, in order, each with its issue link. */
  lemma PlanListsEveryTask(userID: string, tasks: seq<Task>, i: nat)
    requires i < |tasks|
    ensures PlanText(userID, tasks) ==
      PlanHeader(userID) + Bullets(tasks[..i], true) + Bullet(tasks[i], true) + Bullets(tasks[i + 1..], true)
    ensures Contains(PlanText(userID, tasks), TaskLink(tasks[i].key))
  {
    BulletsAt(tasks, i, true);
    var before, bullet, after := Bullets(tasks[..i], true), Bullet(tasks[i], true), Bullets(tasks[i + 1..], true);
    AppendAssoc(PlanHeader(userID), before + bullet, after);
    AppendAssoc(PlanHeader(userID), before, bullet);
    BulletLinksIssue(tasks[i], true);
    ContainsWithin(PlanHeader(userID) + Bullets(tasks[..i], true), Bullet(tasks[i], true),
                   Bullets(tasks[i + 1..], true), TaskLink(tasks[i].key));
  }

  /** Either variant of the channel post tags the user it is about. */
  lemma PlanMentionsUser(userID: string, tasks: seq<Task>)
    ensures Contains(PlanText(userID, tasks), Mention(userID))
  {
    var m := Mention(userID);
    ContainsSelf(m);
    if |tasks| > 0 {
      ContainsAppended(m, PlanOpen, m);
      ContainsAppended(PlanOpen + m, PlanClose, m);
      ContainsAppended(PlanHeader(userID), Bullets(tasks, true), m);
    } else {
      ContainsAppended(m, NoPlansClose, m);
    }
  }

  /** A body that cannot be read or decoded into an object is rejected
      with 400; the JSON `null` decodes to a nil map and is ignored. */
  lemma UndecodableRejected(body: Body)
    ensures body.ReadFailed? ==> ImmediateResponse(Classify(body)) == Response(StatusBadRequest, ErrorJson("Failed to read request body"))
    ensures body.Malformed? || (body.Parsed? && !body.value.JObject? && !body.value.JNull?) ==>
      ImmediateResponse(Classify(body)) == Response(StatusBadRequest, ErrorJson("Invalid JSON"))
    ensures body == Parsed(JNull) ==> Classify(body) == Ignore
  {
  }

  /** URL verification answers 200 with the challenge verbatim when it is a
      string, and 400 otherwise. */
  lemma ChallengeEchoed(payload: map<string, Json>)
    requires IsString(Field(payload, "type"), "url_verification")
    ensures var route := Classify(Parsed(JObject(payload)));
      match Field(payload, "challenge")
      case Some(JString(c)) => ImmediateResponse(route) == Response(StatusOK, PlainText(c))
      case _ => ImmediateResponse(route) == Response(StatusBadRequest, ErrorJson("Invalid challenge format"))
  {
  }

  /** The handler posts only for an event callback announcing a check-mark
      reaction, and replies to the user and message that event names. */
  lemma PostsOnlyOnCheckMark(body: Body)
    ensures Classify(body).Acknowledge? ==>
      && body.Parsed? && body.value.JObject?
      && var payload := body.value.fields;
         && IsString(Field(payload, "type"), "event_callback")
         && Field(payload, "event").Some? && Field(payload, "event").value.JObject?
         && var event := Field(payload, "event").value.fields;
            && IsString(Field(event, "type"), "reaction_added")
            && IsString(Field(event, "reaction"), CheckMark)
            && Field(event, "user") == Some(JString(Classify(body).userID))
            && Field(event, "item").Some? && Field(event, "item").value.JObject?
            && Field(Field(event, "item").value.fields, "ts") == Some(JString(Classify(body).ts))
  {
  }

  /** Any other event or reaction in a callback is answered 200 and posts
      nothing. */
  lemma OtherEventsIgnored(payload: map<string, Json>, event: map<string, Json>)
    requires IsString(Field(payload, "type"), "event_callback")
    requires Field(payload, "event") == Some(JObject(event))
    requires !IsString(Field(event, "type"), "reaction_added") || !IsString(Field(event, "reaction"), CheckMark)
    ensures Classify(Parsed(JObject(payload))) == Ignore
  {
  }
}
