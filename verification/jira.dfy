/** main.go: shaping the Jira answers. The organisation's e-mail list, the
    Slack users restricted to that list, and today's tasks grouped by
    assignee e-mail. The HTTP exchange is an input (`JiraApi`): the answer
    for a request URL, already decoded. */
module Jira {
  import opened Models
  import opened Text
  import Slack

  /** Answers of the two Jira REST endpoints, by request URL. */
  datatype JiraApi = JiraApi(
    searchUsers: string -> HttpResult<seq<JiraUser>>,
    searchIssues: string -> HttpResult<JiraSearchResult>)

  function UsersSearchURL(baseURL: string): string {
    baseURL + "/rest/api/3/users/search"
  }

  /** The JQL `status="Today's Plan" AND assignee IS NOT EMPTY`, word by word. */
  const JqlWords := ["status=\"Today's", "Plan\"", "AND", "assignee", "IS", "NOT", "EMPTY"]

  const JQL := Join(JqlWords, " ")

  /** The query string sent for the JQL. */
  const JqlQuery := Join(JqlWords, "%20")

  lemma JqlWordsHaveNoSpaces()
    ensures forall i :: 0 <= i < |JqlWords| ==> ' ' !in JqlWords[i]
  {
  }

  /** The query string is the JQL with every space replaced by "%20". */
  lemma JqlQueryEscapesJQL()
    ensures JqlQuery == EscapeSpaces(JQL)
  {
    JqlWordsHaveNoSpaces();
    EscapeJoin(JqlWords);
  }

  function IssueSearchURL(baseURL: string): string {
    baseURL + "/rest/api/2/search?jql=" + JqlQuery
  }

  function UsersAnswer(cfg: Config, jira: JiraApi): HttpResult<seq<JiraUser>> {
    jira.searchUsers(UsersSearchURL(cfg.jiraBaseURL))
  }

  function IssuesAnswer(cfg: Config, jira: JiraApi): HttpResult<JiraSearchResult> {
    jira.searchIssues(IssueSearchURL(cfg.jiraBaseURL))
  }

  // ---------------------------------------------------------------------
  // Organisation e-mails and the Slack users that belong to them

  /** fetchJiraOrgEmails: nil on any failure, otherwise the users' e-mail
      addresses, one per decoded user, in order. */
  method FetchJiraOrgEmails(cfg: Config, jira: JiraApi) returns (emails: Option<seq<string>>)
    ensures emails.None? <==> !Ok(UsersAnswer(cfg, jira))
    ensures emails.Some? ==>
      var users := UsersAnswer(cfg, jira).decoded.value;
      |emails.value| == |users| &&
      forall i :: 0 <= i < |users| ==> emails.value[i] == users[i].emailAddress
  {
    var resp := jira.searchUsers(UsersSearchURL(cfg.jiraBaseURL));
    if resp.TransportError? || resp.statusCode != StatusOK {
      return None;
    }
    if resp.decoded.None? {
      return None;
    }
    var jiraUsers := resp.decoded.value;
    var out: seq<string> := [];
    for i := 0 to |jiraUsers|
      invariant |out| == i
      invariant forall j :: 0 <= j < i ==> out[j] == jiraUsers[j].emailAddress
    {
      out := out + [jiraUsers[i].emailAddress];
    }
    emails := Some(out);
  }

  function EmailSet(users: seq<JiraUser>): set<string> {
    set u | u in users :: u.emailAddress
  }

  /** The Slack users whose profile e-mail is in `emails`, in list order. */
  function FilterByEmail(users: seq<SlackUser>, emails: set<string>): seq<SlackUser> {
    if users == [] then []
    else (if users[0].email in emails then [users[0]] else []) + FilterByEmail(users[1..], emails)
  }

  /** Filtering commutes with concatenation, so it keeps the list order. */
  lemma {:induction false} FilterByEmailAppend(a: seq<SlackUser>, b: seq<SlackUser>, emails: set<string>)
    ensures FilterByEmail(a + b, emails) == FilterByEmail(a, emails) + FilterByEmail(b, emails)
  {
    if a == [] {
      assert a + b == b;
    } else {
      var head := if a[0].email in emails then [a[0]] else [];
      assert (a + b)[1..] == a[1..] + b;
      assert (a + b)[0] == a[0];
      assert FilterByEmail(a + b, emails) == head + FilterByEmail(a[1..] + b, emails);
      FilterByEmailAppend(a[1..], b, emails);
      AppendAssoc(head, FilterByEmail(a[1..], emails), FilterByEmail(b, emails));
    }
  }

  /** Exactly the users with a listed e-mail survive, each as often as it
      occurs in the input. */
  lemma {:induction false} FilterByEmailCounts(users: seq<SlackUser>, emails: set<string>)
    ensures forall u :: multiset(FilterByEmail(users, emails))[u] ==
                        if u.email in emails then multiset(users)[u] else 0
  {
    if users != [] {
      FilterByEmailCounts(users[1..], emails);
      assert users == [users[0]] + users[1..];
    }
  }

  /** What fetchJiraOrgSlackUsers returns: nil when the Slack user list or
      the Jira e-mail list could not be fetched. */
  function OrgSlackUsers(cfg: Config, jira: JiraApi, dir: Slack.Directory): (r: Option<seq<SlackUser>>)
    ensures r.None? <==> dir.getUsers.None? || !Ok(UsersAnswer(cfg, jira))
    ensures r.Some? ==>
      var emails := EmailSet(UsersAnswer(cfg, jira).decoded.value);
      forall u :: multiset(r.value)[u] == if u.email in emails then multiset(dir.getUsers.value)[u] else 0
    ensures r.Some? && UsersAnswer(cfg, jira).decoded.value == [] ==> r.value == []
  {
    if dir.getUsers.None? || !Ok(UsersAnswer(cfg, jira)) then None
    else
      var emails := EmailSet(UsersAnswer(cfg, jira).decoded.value);
      FilterByEmailCounts(dir.getUsers.value, emails);
      var r := FilterByEmail(dir.getUsers.value, emails);
      assert emails == {} ==> multiset(r) == multiset{};
      Some(r)
  }

  /** fetchJiraOrgSlackUsers */
  method FetchJiraOrgSlackUsers(cfg: Config, jira: JiraApi, dir: Slack.Directory) returns (r: Option<seq<SlackUser>>)
    ensures r == OrgSlackUsers(cfg, jira, dir)
  {
    if dir.getUsers.None? {
      return None;
    }
    var users := dir.getUsers.value;
    var jiraOrgEmails := FetchJiraOrgEmails(cfg, jira);
    if jiraOrgEmails.None? {
      return None;
    }
    var emails := jiraOrgEmails.value;
    ghost var jiraUsers := UsersAnswer(cfg, jira).decoded.value;

    var jiraEmailSet: set<string> := {};
    for i := 0 to |emails|
      invariant jiraEmailSet == set j | 0 <= j < i :: emails[j]
    {
      jiraEmailSet := jiraEmailSet + {emails[i]};
    }
    assert jiraEmailSet == EmailSet(jiraUsers) by {
      forall x | x in EmailSet(jiraUsers) ensures x in jiraEmailSet {
        var u :| u in jiraUsers && u.emailAddress == x;
        var j :| 0 <= j < |jiraUsers| && jiraUsers[j] == u;
        assert emails[j] == x;
      }
    }

    var userPtrs: seq<SlackUser> := [];
    for i := 0 to |users|
      invariant userPtrs == FilterByEmail(users[..i], jiraEmailSet)
    {
      FilterByEmailAppend(users[..i], [users[i]], jiraEmailSet);
      assert users[..i + 1] == users[..i] + [users[i]];
      if users[i].email in jiraEmailSet {
        userPtrs := userPtrs + [users[i]];
      }
    }
    assert users[..|users|] == users;
    r := Some(userPtrs);
  }

  // ---------------------------------------------------------------------
  // Today's tasks, grouped by assignee

  /** The Task an issue becomes: key, summary and status name copied. */
  function TaskOf(issue: Issue): Task {
    Task(issue.key, issue.summary, issue.statusName)
  }

  /** The tasks of the issues assigned to `email`, in issue order. */
  function TasksAssignedTo(issues: seq<Issue>, email: string): seq<Task> {
    if issues == [] then []
    else
      var first := if issues[0].assigneeEmail == email then [TaskOf(issues[0])] else [];
      first + TasksAssignedTo(issues[1..], email)
  }

  lemma {:induction false} TasksAssignedToAppend(a: seq<Issue>, b: seq<Issue>, email: string)
    ensures TasksAssignedTo(a + b, email) == TasksAssignedTo(a, email) + TasksAssignedTo(b, email)
  {
    if a == [] {
      assert a + b == b;
    } else {
      var first := if a[0].assigneeEmail == email then [TaskOf(a[0])] else [];
      assert (a + b)[1..] == a[1..] + b;
      assert (a + b)[0] == a[0];
      assert TasksAssignedTo(a + b, email) == first + TasksAssignedTo(a[1..] + b, email);
      TasksAssignedToAppend(a[1..], b, email);
      AppendAssoc(first, TasksAssignedTo(a[1..], email), TasksAssignedTo(b, email));
    }
  }

  /** The grouping as the loop of fetchTodaysPlanTasksFromJira builds it:
      each issue appends its task to its assignee's list, a missing list
      starting out empty. */
  function TasksByAssignee(issues: seq<Issue>): map<string, seq<Task>>
    decreases |issues|
  {
    if issues == [] then map[]
    else
      var g := TasksByAssignee(issues[..|issues| - 1]);
      var x := issues[|issues| - 1];
      var e := x.assigneeEmail;
      g[e := (if e in g then g[e] else []) + [TaskOf(x)]]
  }

  /** fetchTodaysPlanTasksFromJira's result: nil on any failure. */
  function TodaysPlanTasks(cfg: Config, jira: JiraApi): (r: Option<map<string, seq<Task>>>)
    ensures r.None? <==> !Ok(IssuesAnswer(cfg, jira))
    ensures r.Some? ==> forall e :: e in r.value ==> r.value[e] != []
  {
    var resp := IssuesAnswer(cfg, jira);
    if !Ok(resp) then None
    else
      GroupingFaithful(resp.decoded.value.issues);
      Some(TasksByAssignee(resp.decoded.value.issues))
  }

  /** The issue loop of fetchTodaysPlanTasksFromJira: the map is built
      issue by issue, and comes out as the reference grouping. */
  method GroupByAssignee(issues: seq<Issue>) returns (tasksByUser: map<string, seq<Task>>)
    ensures tasksByUser == TasksByAssignee(issues)
    ensures forall e :: e in tasksByUser <==> exists i :: 0 <= i < |issues| && issues[i].assigneeEmail == e
    ensures forall e :: e in tasksByUser ==> tasksByUser[e] == TasksAssignedTo(issues, e)
  {
    tasksByUser := map[];
    for i := 0 to |issues|
      invariant tasksByUser == TasksByAssignee(issues[..i])
    {
      var email := issues[i].assigneeEmail;
      var task := Task(issues[i].key, issues[i].summary, issues[i].statusName);
      ghost var prefix := issues[..i + 1];
      assert prefix[..|prefix| - 1] == issues[..i] && prefix[|prefix| - 1] == issues[i];
      tasksByUser := tasksByUser[email := (if email in tasksByUser then tasksByUser[email] else []) + [task]];
    }
    assert issues[..|issues|] == issues;
    GroupingFaithful(issues);
  }

  /** fetchTodaysPlanTasksFromJira: nil on any failure, otherwise the
      issues grouped by assignee e-mail. */
  method FetchTodaysPlanTasks(cfg: Config, jira: JiraApi) returns (r: Option<map<string, seq<Task>>>)
    ensures r == TodaysPlanTasks(cfg, jira)
  {
    var resp := jira.searchIssues(IssueSearchURL(cfg.jiraBaseURL));
    if resp.TransportError? || resp.statusCode != StatusOK {
      return None;
    }
    if resp.decoded.None? {
      return None;
    }
    var issues := resp.decoded.value.issues;
    var tasksByUser := GroupByAssignee(issues);
    r := Some(tasksByUser);
  }

  // ---------------------------------------------------------------------
  // Properties of the grouping

  /** The total number of tasks over all lists of a grouping. */
  ghost function TotalTasks(m: map<string, seq<Task>>): nat
    decreases |m.Keys|
  {
    if m == map[] then 0
    else
      var k :| k in m;
      |m[k]| + TotalTasks(m - {k})
  }

  lemma {:induction false} TotalTasksRemove(m: map<string, seq<Task>>, k: string)
    requires k in m
    ensures TotalTasks(m) == |m[k]| + TotalTasks(m - {k})
    decreases |m.Keys|
  {
    var k' :| k' in m && TotalTasks(m) == |m[k']| + TotalTasks(m - {k'});
    if k' != k {
      assert (m - {k'}).Keys == m.Keys - {k'};
      assert (m - {k}).Keys == m.Keys - {k};
      TotalTasksRemove(m - {k'}, k);
      TotalTasksRemove(m - {k}, k');
      assert m - {k'} - {k} == m - {k} - {k'};
    }
  }

  /** Every issue lands in exactly one list: the list lengths add up to the
      number of issues. */
  lemma {:induction false} GroupingCountsEveryIssue(issues: seq<Issue>)
    ensures TotalTasks(TasksByAssignee(issues)) == |issues|
    decreases |issues|
  {
    if issues != [] {
      var init := issues[..|issues| - 1];
      var x := issues[|issues| - 1];
      assert issues == init + [x];
      GroupingCountsEveryIssue(init);
      var g := TasksByAssignee(init);
      var e := x.assigneeEmail;
      var g' := g[e := (if e in g then g[e] else []) + [TaskOf(x)]];
      TotalTasksRemove(g', e);
      assert g' - {e} == g - {e};
      if e in g {
        TotalTasksRemove(g, e);
      } else {
        assert g - {e} == g;
      }
    }
  }

  /** The grouping agrees with the reference `TasksAssignedTo`: its keys
      are exactly the assignee e-mails of the issues, and each key holds
      the tasks of its issues in issue order. So no list is empty. */
  lemma {:induction false} GroupingFaithful(issues: seq<Issue>)
    ensures forall e :: e in TasksByAssignee(issues) <==>
                          exists i :: 0 <= i < |issues| && issues[i].assigneeEmail == e
    ensures forall e :: e in TasksByAssignee(issues) ==>
                          TasksByAssignee(issues)[e] == TasksAssignedTo(issues, e) && TasksByAssignee(issues)[e] != []
    decreases |issues|
  {
    if issues != [] {
      var init := issues[..|issues| - 1];
      var x := issues[|issues| - 1];
      assert issues == init + [x];
      GroupingFaithful(init);
      forall e
        ensures e in TasksByAssignee(issues) <==> exists i :: 0 <= i < |issues| && issues[i].assigneeEmail == e
        ensures e in TasksByAssignee(issues) ==> TasksByAssignee(issues)[e] == TasksAssignedTo(issues, e)
      {
        GroupingStep(init, x, e);
      }
    }
  }

  /** One more issue, seen from one e-mail: the grouping and the reference
      still agree on it. */
  lemma GroupingStep(init: seq<Issue>, x: Issue, e: string)
    requires e in TasksByAssignee(init) <==> exists i :: 0 <= i < |init| && init[i].assigneeEmail == e
    requires e in TasksByAssignee(init) ==> TasksByAssignee(init)[e] == TasksAssignedTo(init, e)
    ensures e in TasksByAssignee(init + [x]) <==> exists i :: 0 <= i < |init + [x]| && (init + [x])[i].assigneeEmail == e
    ensures e in TasksByAssignee(init + [x]) ==> TasksByAssignee(init + [x])[e] == TasksAssignedTo(init + [x], e)
  {
    var issues := init + [x];
    assert issues[..|issues| - 1] == init;
    TasksAssignedToAppend(init, [x], e);
    assert [x][1..] == [];
    if e in TasksByAssignee(issues) && e != x.assigneeEmail {
      var i :| 0 <= i < |init| && init[i].assigneeEmail == e;
      assert issues[i] == init[i];
    }
    if exists i :: 0 <= i < |issues| && issues[i].assigneeEmail == e {
      var i :| 0 <= i < |issues| && issues[i].assigneeEmail == e;
      if i < |init| {
        assert init[i] == issues[i];
      }
    }
    if e == x.assigneeEmail && e !in TasksByAssignee(init) {
      TasksAssignedToEmpty(init, e);
    }
  }

  /** An e-mail no issue is assigned to has no tasks. */
  lemma {:induction false} TasksAssignedToEmpty(issues: seq<Issue>, email: string)
    requires forall i :: 0 <= i < |issues| ==> issues[i].assigneeEmail != email
    ensures TasksAssignedTo(issues, email) == []
  {
    if issues != [] {
      assert forall i :: 0 <= i < |issues[1..]| ==> issues[1..][i] == issues[i + 1];
      TasksAssignedToEmpty(issues[1..], email);
    }
  }

  /** Every task of the grouping is copied unchanged from an issue assigned
      to its key: key, summary and status name. */
  lemma TasksCopiedFromIssues(issues: seq<Issue>, e: string, j: nat)
    requires e in TasksByAssignee(issues) && j < |TasksByAssignee(issues)[e]|
    ensures exists i :: (0 <= i < |issues| && issues[i].assigneeEmail == e &&
                         TasksByAssignee(issues)[e][j] == Task(issues[i].key, issues[i].summary, issues[i].statusName))
  {
    GroupingFaithful(issues);
    var i := TaskSource(issues, e, j);
  }

  /** The index of the issue the `j`-th task of `email` comes from. */
  lemma {:induction false} TaskSource(issues: seq<Issue>, email: string, j: nat) returns (i: nat)
    requires j < |TasksAssignedTo(issues, email)|
    ensures i < |issues| && issues[i].assigneeEmail == email
    ensures TasksAssignedTo(issues, email)[j] == TaskOf(issues[i])
  {
    if issues[0].assigneeEmail == email {
      if j == 0 {
        i := 0;
      } else {
        var k := TaskSource(issues[1..], email, j - 1);
        i := k + 1;
      }
    } else {
      var k := TaskSource(issues[1..], email, j);
      i := k + 1;
    }
  }
}
