# Slack acknowledgment bot — a Dafny model of its core

The bot is a small Go service for one team. Every morning it reads the Jira
issues in the "Today's Plan" status and groups them by assignee e-mail. It
then sends direct Slack messages. Every task holder whose Slack account is
found by e-mail gets the list of their tasks; every organisation user with
an e-mail and no tasks gets a reminder to add some. A task holder that
Slack does not find, and an organisation user without an e-mail, get
nothing. Both messages ask the member to react with :white_check_mark:.
The bot records everyone it prompted in a roster. It then runs the
acknowledgment sweep over that roster. For each member it looks up the
Slack account, opens the direct conversation and reads the newest message
of the last 24 hours; if any of these steps fails, the member is skipped.
Otherwise the member is reported in the leave channel unless an inspected
message that carries the "React with :white_check_mark:" marker has their
check-mark reaction. The bot also serves a Slack Events webhook. It answers
URL verification. On a check-mark reaction it thanks the member in the
thread and posts the member's plan for today to the Go channel.

The model follows the source file by file:

- `Models` (models.dfy): the records of `models/struct.go`, the Slack and Jira values read, the outbound post and the configuration.
- `Text` (text.dfy): `strings.Contains` and the `" "` → `"%20"` escaping of the JQL.
- `Slack` (slack.dfy): the Slack answers of one run (`Directory`), and the client whose `outbox` records every `PostMessage` request.
- `Messages` (message.dfy): the two prompts, the bullet format and `postMessageToSlack` of message.go.
- `Jira` (jira.dfy): the three Jira fetches of main.go with their result shaping.
- `Ack` (ack.dfy): the daily dispatch and the acknowledgment sweep of ack.go.
- `Event` (event.dfy): the webhook routing, the thread reply and the plan post of event.go.

Calls into Slack and Jira are inputs. A `Slack.Directory` gives the answer
of each Slack read, with `None` for an error. A `Jira.JiraApi` gives the
answer for a request URL: a transport error, or a status code together with
the decoded body. Every post goes through `Slack.Client.PostMessage` and is
appended to `outbox`, so a method's effect is stated as
`client.outbox == old(client.outbox) + …`. Go's random map iteration order
is left open: the loops over a map pick the next key with `:|` and return
the order they used as a ghost result. `Ack.Enumerates` says that this
order lists every key exactly once. Go code that panics is modelled as an
explicit `Crash` outcome, which gin's recovery middleware answers with a
bare 500.

## Model

| member | source | states |
|---|---|---|
| Slack.Client.PostMessage | message.go:46 | one post request is appended to the outbox, nothing else changes |
| Text.ContainsIff | ack.go:69 | the substring test succeeds exactly when the marker occurs at some index |
| Text.EscapeSpaces | main.go:130 | the escaped query string contains no space |
| Text.EscapeRoundTrip | main.go:130 | escaping loses nothing: for text without '%', replacing "%20" back by spaces gives the original |
| Text.EscapeJoin | main.go:129-130 | escaping words joined by spaces yields the same words joined by "%20" |
| Jira.JqlQueryEscapesJQL | main.go:129-130 | the query string in the issue-search URL is the JQL with its spaces escaped |
| Jira.FetchJiraOrgEmails | main.go:95-125 | nil exactly when the request fails, the status is not 200 or the body does not decode; otherwise one e-mail per Jira user, in order |
| Jira.FilterByEmailAppend | main.go:85-89 | filtering the Slack users keeps their list order |
| Jira.FilterByEmailCounts | main.go:85-89 | a Slack user survives exactly when its e-mail is a Jira e-mail, as often as it occurs |
| Jira.OrgSlackUsers | main.go:64-92 | nil exactly when the Slack user list or the Jira e-mails could not be fetched; otherwise exactly the Slack users with a Jira e-mail, with multiplicity; an empty Jira list gives an empty result |
| Jira.FetchJiraOrgSlackUsers | main.go:64-92 | the set-building and filtering loops return `OrgSlackUsers` |
| Jira.TodaysPlanTasks | main.go:128-162 | nil exactly when the search fails, is not 200 or does not decode; no assignee in the map has an empty list |
| Jira.GroupByAssignee | main.go:151-161 | the map built issue by issue has as keys exactly the assignee e-mails, each holding the tasks of its issues in issue order |
| Jira.FetchTodaysPlanTasks | main.go:128-162 | the fetch returns `TodaysPlanTasks` |
| Jira.GroupingCountsEveryIssue | main.go:151-160 | the list lengths add up to the number of issues: every issue lands in exactly one list |
| Jira.GroupingFaithful | main.go:151-160 | the fold-built grouping agrees with the per-e-mail reference `TasksAssignedTo`, and no list is empty |
| Jira.TasksCopiedFromIssues | main.go:154-158 | every task copies key, summary and status name from an issue assigned to its key |
| Messages.BulletsAppend | message.go:21-25 | the bullets of two task lists are the bullets of each, one after the other |
| Messages.BulletsAt | message.go:21-25 | task i's bullet sits between the bullets of the tasks before and after it |
| Messages.BulletLinksIssue | message.go:22-24 | every bullet carries the browse link of its issue key |
| Messages.TaskPromptShape | message.go:13-29 | the task prompt is empty exactly when there are no tasks; otherwise it starts with the greeting and ends with the reminder |
| Messages.PromptsCarryMarker | message.go:26-39 | both prompts contain "React with :white_check_mark:"; the task prompt does so exactly when it lists a task |
| Messages.PromptsMentionUser | message.go:16-36 | both prompts mention the user they are sent to |
| Messages.AppendBullets | message.go:21-25 | the `msg +=` loop over the tasks (shared with event.go:66-70) appends exactly the bullets of all tasks, in order |
| Messages.BuildTaskMessage | message.go:13-29 | the `msg +=` loop builds the task prompt |
| Messages.PostMessageToSlack | message.go:45-50 | one post to the target; an error is only logged |
| Messages.SendTaskMessage | message.go:13-31 | the task prompt is posted to the user, even when it is empty |
| Messages.SendNoTaskMessage | message.go:34-43 | the no-task prompt is posted to the user |
| Ack.CheckAcknowledged | ack.go:67-97 | the nested search with its breaks reports true exactly when some marker message has fetchable reactions that include the user's check mark |
| Ack.CheckUser | ack.go:27-112 | one roster e-mail adds exactly the posts of its outcome: a failed lookup, conversation or history adds none, an acknowledgment none, otherwise one escalation |
| Ack.CheckAcknowledgmentsFromPreviousRun | ack.go:13-115 | every roster e-mail is visited once, in some order, and the outbox grows by the sweep's escalations in that order |
| Ack.EscalationMentionsUser | ack.go:100-105 | the escalation mentions the user it reports |
| Ack.SweepPostsAt | ack.go:27-112 | each e-mail contributes exactly its own outcome's posts, one post if escalated and none otherwise |
| Ack.SweepOrderIrrelevant | ack.go:27 | any two orders of the same e-mails post the same escalations |
| Ack.SweepPostsAreEscalations | ack.go:99-107 | one post per escalated e-mail; every post goes to the leave channel and names the re-resolved ID of an escalated e-mail |
| Ack.EscalatedIff | ack.go:31-107 | a user is escalated exactly when all three lookups succeed and no inspected message confirms them |
| Ack.ReactionFailureIgnored | ack.go:76-80 | a message whose reactions cannot be fetched counts for nothing |
| Ack.NewestMessageOnly | ack.go:50-55 | with the limit of 1 honoured, only the newest message of the 24-hour window decides |
| Ack.PromptTaskHolder | ack.go:127-136 | a task holder found in Slack gets the task prompt; one not found gets nothing |
| Ack.PromptTaskHolders | ack.go:126-137 | the task loop visits every task holder once and leaves the roster and the posts of `TaskPhase` |
| Ack.PromptUsersWithoutTasks | ack.go:140-153 | the user loop adds the roster entries and posts of `NoTaskPhase` |
| Ack.SendAcknowledgmentMessagesForAllUsers | ack.go:117-162 | the run posts the task prompts, then the no-task prompts, then the sweep's escalations for the roster it built |
| Ack.PromptPostsAt | ack.go:126-153 | one post per prompt, in prompt order |
| Ack.TaskPhaseFacts | ack.go:126-137 | each task prompt goes to a found task holder with that holder's whole list, once per visit |
| Ack.NoTaskPhaseFacts | ack.go:140-153 | the no-task prompts go exactly to organisation users with an e-mail and no tasks |
| Ack.RosterOfFacts | ack.go:126-153 | the roster holds exactly the prompted e-mails, each with the record of one of its prompts |
| Ack.DispatchRoster | ack.go:121-153 | a task holder is in the roster exactly when found in Slack, with its ID and the task flag set; the other entries are organisation users without tasks; the flag is set exactly for task holders |
| Ack.DispatchPromptCounts | ack.go:126-153 | each found task holder gets exactly one task prompt and never the no-task prompt; an unfound task holder gets none |
| Ack.DispatchPromptsCarryMarker | ack.go:126-153 | every prompt of the dispatch carries the marker the sweep looks for, given task lists that are never empty (as `Jira.TodaysPlanTasks` ensures) |
| Event.BuildPlanMessage | event.go:64-75 | the `msg +=` loop builds the plan text, or the no-plans line for no tasks |
| Event.SendMessageToThread | event.go:84-91 | one post threaded under the reacted message |
| Event.AppendedInOrder | event.go:60-75 | the thread reply comes first, the channel post after it |
| Event.PostPlan | event.go:62-75 | the plan of the user's e-mail goes to the Go channel |
| Event.HandleCheckMark | event.go:56-76 | a check mark adds the thread reply and the plan post; a failed user lookup adds only the reply and answers 500 |
| Event.HandleSlackEvents | event.go:14-80 | a check mark posts as above; every other request posts nothing and gets the route's status and body |
| Event.PlanListsEveryTask | event.go:65-70 | the plan lists every task in order, each with its issue link |
| Event.PlanMentionsUser | event.go:65-73 | both variants of the channel post mention the user |
| Event.UndecodableRejected | event.go:18-34 | an unreadable body or one that is not a JSON object gets 400; a JSON null is ignored |
| Event.ChallengeEchoed | event.go:37-51 | URL verification echoes a string challenge verbatim with 200, anything else gets 400 |
| Event.PostsOnlyOnCheckMark | event.go:53-59 | a post happens only for a `reaction_added` callback with `white_check_mark`, for the user and timestamp it names |
| Event.OtherEventsIgnored | event.go:54-79 | any other event type or reaction is answered 200 and posts nothing |

## Left out

- Logging (the `logger` package, `log.Printf`, the totals logged at ack.go:155-159) has no effect on behaviour and is not modelled.
- Process wiring is not modelled: `main`, the environment, `authTest`, the 9 AM cron schedule and the gin server setup. Only the panic recovery is kept, as the 500 answer of `Crash`.
- HTTP details of the Jira requests are inputs: the Basic-auth header, the `Accept` header and the JSON decoding. `JiraApi` answers with the decoded body.
- JSON decoding of the webhook body is an input (`Body`). The decoder's own error text, sent as `details` with "Invalid JSON", is not modelled, and neither is the `details` field in general.
- `time.Now` is the `now` parameter, in Unix seconds. The decimal formatting of `Oldest`/`Latest` and Slack's inclusive or exclusive window ends are not modelled.
- Ack.NewestMessageOnly: it assumes that Slack returns no more messages than the requested limit.
- Ack.CheckAcknowledgmentsFromPreviousRun: a run's Slack answers are one fixed `Directory`. The model does not relate the history the sweep reads to the prompts the same run has just posted.
- A post that Slack rejects is still recorded in `outbox`. The source ignores every post error, so nothing downstream depends on the outcome.
- Slack's user-list pagination and the `*slack.User` pointers of `fetchJiraOrgSlackUsers` are not modelled; users are values.
- The roster's Slack ID and task flag are modelled (Ack.DispatchRoster), but the sweep, like the source, reads only the roster's e-mails.
- Jira.JqlQueryEscapesJQL: the JQL is written as its words (`JqlWords`); the words joined by spaces are the text of main.go:129.
