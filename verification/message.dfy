/** message.go: the two daily prompts, and posting to Slack with errors
    swallowed. Also the task-link and bullet formats shared with event.go. */
module Messages {
  import opened Models
  import opened Text
  import Slack

  const BrowseURL := "https://makerble-backend.atlassian.net/browse/"

  /** The reaction name that acknowledges a prompt. */
  const CheckMark := "white_check_mark"

  /** The text the acknowledgment sweep looks for in a prompt. */
  const Marker := "React with :white_check_mark:"

  /** A task key rendered as a Slack link to the issue: `<link|KEY>`. */
  function TaskLink(key: string): string {
    "<" + BrowseURL + key + "|" + key + ">"
  }

  /** One bullet line; the channel summary of event.go shows the summary in
      italics, the prompt of message.go does not. */
  function Bullet(t: Task, italic: bool): string {
    "• " + TaskLink(t.key) + " — " + (if italic then "_" + t.summary + "_" else t.summary) + "\n"
  }

  /** One bullet line per task, in task order. */
  function Bullets(tasks: seq<Task>, italic: bool): string {
    if tasks == [] then "" else Bullet(tasks[0], italic) + Bullets(tasks[1..], italic)
  }

  /** The bullets of two task lists side by side are the bullets of the two
      lists one after the other: order is kept and no line is lost. */
  lemma {:induction false} BulletsAppend(a: seq<Task>, b: seq<Task>, italic: bool)
    ensures Bullets(a + b, italic) == Bullets(a, italic) + Bullets(b, italic)
  {
    if a != [] {
      assert (a + b)[1..] == a[1..] + b;
      assert (a + b)[0] == a[0];
      assert Bullets(a + b, italic) == Bullet(a[0], italic) + Bullets(a[1..] + b, italic);
      BulletsAppend(a[1..], b, italic);
      AppendAssoc(Bullet(a[0], italic), Bullets(a[1..], italic), Bullets(b, italic));
    } else {
      assert a + b == b;
    }
  }

  /** Task `i` keeps its place among the bullets. */
  lemma BulletsAt(tasks: seq<Task>, i: nat, italic: bool)
    requires i < |tasks|
    ensures Bullets(tasks, italic) ==
      Bullets(tasks[..i], italic) + Bullet(tasks[i], italic) + Bullets(tasks[i + 1..], italic)
  {
    assert tasks == tasks[..i] + ([tasks[i]] + tasks[i + 1..]);
    BulletsAppend(tasks[..i], [tasks[i]] + tasks[i + 1..], italic);
    BulletsAppend([tasks[i]], tasks[i + 1..], italic);
    assert [tasks[i]][1..] == [];
  }

  /** A bullet carries the link to its issue. */
  lemma BulletLinksIssue(t: Task, italic: bool)
    ensures Contains(Bullet(t, italic), TaskLink(t.key))
  {
    var rest := " — " + (if italic then "_" + t.summary + "_" else t.summary) + "\n";
    assert Bullet(t, italic) == "• " + TaskLink(t.key) + rest;
    ContainsInfix("• ", TaskLink(t.key), rest);
  }

  /** A Slack mention of the user with this ID. */
  function Mention(userID: string): string {
    "<@" + userID + ">"
  }

  const Hello := "Hello "
  const PromptTitle := ",\n*Acknowledge Your Today's Plan:*\n"

  function PromptHeader(userID: string): string {
    Hello + Mention(userID) + PromptTitle
  }

  const Reminder := "\n*Reminder:* Before acknowledging, ensure that all your tasks for today's plan are added. "
  const AcknowledgeTail := " to *acknowledge*."
  const PromptFooter := Reminder + Marker + AcknowledgeTail

  /** The text sendTaskMessage posts: empty when there are no tasks. */
  function TaskPrompt(userID: string, tasks: seq<Task>): string {
    if tasks == [] then "" else PromptHeader(userID) + Bullets(tasks, false) + PromptFooter
  }

  /** The task prompt is empty exactly when there are no tasks; otherwise
      it opens with the greeting and closes with the reminder. */
  lemma TaskPromptShape(userID: string, tasks: seq<Task>)
    ensures TaskPrompt(userID, tasks) == "" <==> tasks == []
    ensures tasks != [] ==> PromptHeader(userID) <= TaskPrompt(userID, tasks)
    ensures var r := TaskPrompt(userID, tasks);
            tasks != [] ==> |r| >= |PromptFooter| && r[|r| - |PromptFooter|..] == PromptFooter
  {
  }

  const NoTaskBody := ",\n*It looks like you don't have any tasks under 'Today's Plan' in Jira.*\n"
    + "To stay on track, please update your tasks for today in the Jira board.\n"
    + "Once updated, "
  const AcknowledgeLine := AcknowledgeTail + "\n"

  /** The text sendNoTaskMessage posts; it depends on the user ID only. */
  function NoTaskPrompt(userID: string): string {
    Hello + Mention(userID) + NoTaskBody + Marker + AcknowledgeLine
  }

  /** Both prompts carry the marker the sweep searches for; the task prompt
      does so exactly when there is at least one task (an empty list gives
      the empty text). */
  lemma PromptsCarryMarker(userID: string, tasks: seq<Task>)
    ensures Contains(TaskPrompt(userID, tasks), Marker) <==> tasks != []
    ensures Contains(NoTaskPrompt(userID), Marker)
  {
    ContainsSelf(Marker);
    if tasks != [] {
      ContainsAppended(Marker, Reminder, Marker);
      ContainsAppended(Reminder + Marker, AcknowledgeTail, Marker);
      ContainsAppended(PromptFooter, PromptHeader(userID) + Bullets(tasks, false), Marker);
    } else {
      EmptyContainsNothing(Marker);
    }
    ContainsAppended(Marker, Hello + Mention(userID) + NoTaskBody, Marker);
    ContainsAppended(Hello + Mention(userID) + NoTaskBody + Marker, AcknowledgeLine, Marker);
  }

  /** Both prompts greet the user they are sent to by mention. */
  lemma PromptsMentionUser(userID: string, tasks: seq<Task>)
    ensures tasks != [] ==> Contains(TaskPrompt(userID, tasks), Mention(userID))
    ensures Contains(NoTaskPrompt(userID), Mention(userID))
  {
    var m := Mention(userID);
    ContainsSelf(m);
    ContainsAppended(m, Hello, m);
    if tasks != [] {
      ContainsAppended(Hello + m, PromptTitle, m);
      ContainsAppended(Hello + m + PromptTitle, Bullets(tasks, false), m);
      ContainsAppended(PromptHeader(userID) + Bullets(tasks, false), PromptFooter, m);
    }
    ContainsAppended(Hello + m, NoTaskBody, m);
    ContainsAppended(Hello + m + NoTaskBody, Marker, m);
    ContainsAppended(Hello + m + NoTaskBody + Marker, AcknowledgeLine, m);
  }

  lemma BulletsSingle(t: Task, italic: bool)
    ensures Bullets([t], italic) == Bullet(t, italic)
  {
    assert [t][1..] == [];
  }

  /** One more bullet at the end of an accumulated text. */
  lemma BulletsStep(acc: string, tasks: seq<Task>, i: nat, italic: bool)
    requires i < |tasks|
    ensures acc + Bullets(tasks[..i + 1], italic) == acc + Bullets(tasks[..i], italic) + Bullet(tasks[i], italic)
  {
    assert tasks[..i + 1] == tasks[..i] + [tasks[i]];
    BulletsAppend(tasks[..i], [tasks[i]], italic);
    BulletsSingle(tasks[i], italic);
    AppendAssoc(acc, Bullets(tasks[..i], italic), Bullet(tasks[i], italic));
  }

  /** The `msg +=` loop over the tasks shared by message.go and event.go:
      one bullet per task, appended to `msg0`. */
  method AppendBullets(msg0: string, tasks: seq<Task>, italic: bool) returns (msg: string)
    ensures msg == msg0 + Bullets(tasks, italic)
  {
    msg := msg0;
    for i := 0 to |tasks|
      invariant msg == msg0 + Bullets(tasks[..i], italic)
    {
      BulletsStep(msg0, tasks, i, italic);
      msg := msg + Bullet(tasks[i], italic);
    }
    assert tasks[..|tasks|] == tasks;
  }

  /** sendTaskMessage's text, accumulated line by line. */
  method BuildTaskMessage(userID: string, tasks: seq<Task>) returns (msg: string)
    ensures msg == TaskPrompt(userID, tasks)
  {
    msg := "";
    if |tasks| > 0 {
      msg := AppendBullets(PromptHeader(userID), tasks, false);
      msg := msg + PromptFooter;
    }
  }

  /** postMessageToSlack: one post to `target`; a failure is only logged. */
  method PostMessageToSlack(client: Slack.Client, target: string, msg: string)
    modifies client
    ensures client.outbox == old(client.outbox) + [Post(target, msg, None)]
  {
    client.PostMessage(target, msg, None);
  }

  /** sendTaskMessage: the task prompt goes to the user's direct messages,
      even when it is empty. */
  method SendTaskMessage(client: Slack.Client, userID: string, tasks: seq<Task>)
    modifies client
    ensures client.outbox == old(client.outbox) + [Post(userID, TaskPrompt(userID, tasks), None)]
  {
    var msg := BuildTaskMessage(userID, tasks);
    PostMessageToSlack(client, userID, msg);
  }

  /** sendNoTaskMessage */
  method SendNoTaskMessage(client: Slack.Client, userID: string)
    modifies client
    ensures client.outbox == old(client.outbox) + [Post(userID, NoTaskPrompt(userID), None)]
  {
    PostMessageToSlack(client, userID, NoTaskPrompt(userID));
  }
}
