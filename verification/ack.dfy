/** ack.go: the daily dispatch that prompts every user and builds the
    roster, and the acknowledgment sweep that runs on that roster and
    escalates to the leave channel every user whose prompt carries no
    check-mark reaction from them.

    Go's `range` over a map visits every key once in an order of the
    runtime's choosing; the loops below pick the next key with `:|` and
    hand back that order as a ghost result. */
module Ack {
  import opened Models
  import opened Text
  import opened Messages
  import Slack
  import Jira

  /** The history window reaches back 24 hours, in seconds. */
  const WindowSeconds := 24 * 60 * 60

  /** At most this many history messages are requested. */
  const HistoryLimit: nat := 1

  /** A roster record (`usersToCheck[email]`). */
  datatype RosterEntry = RosterEntry(slackID: string, hasTasks: bool)

  /** `order` lists every key of `keys` exactly once. */
  predicate Enumerates(order: seq<string>, keys: set<string>) {
    multiset(order) == multiset(keys)
  }

  lemma EnumeratesStep(order: seq<string>, keys: set<string>, remaining: set<string>, e: string)
    requires remaining <= keys && e in remaining
    requires Enumerates(order, keys - remaining)
    ensures Enumerates(order + [e], keys - (remaining - {e}))
  {
    assert keys - (remaining - {e}) == (keys - remaining) + {e};
    assert e !in keys - remaining;
  }

  // ---------------------------------------------------------------------
  // Acknowledgment sweep (checkAcknowledgmentsFromPreviousRun)

  /** The escalation posted to the leave channel for an unacknowledged user. */
  const EscalationHead := ":warning: *Pending Acknowledgment*\n"
  const EscalationTail :=
    " has not acknowledged the required message from yesterday. "
    + "Please follow up with them if needed to ensure it's addressed.\n"
    + "Thank you! :pray:"

  function EscalationText(userID: string): string {
    EscalationHead + Mention(userID) + EscalationTail
  }

  /** The escalation tags the user it is about. */
  lemma EscalationMentionsUser(userID: string)
    ensures Contains(EscalationText(userID), Mention(userID))
  {
    ContainsSelf(Mention(userID));
    ContainsAppended(Mention(userID), EscalationHead, Mention(userID));
    ContainsAppended(EscalationHead + Mention(userID), EscalationTail, Mention(userID));
  }

  function EscalationPost(cfg: Config, userID: string): Post {
    Post(cfg.leaveChannelID, EscalationText(userID), None)
  }

  /** Some check-mark reaction lists `userID` among its reactors. */
  predicate ConfirmedBy(reactions: seq<Reaction>, userID: string) {
    exists r :: r in reactions && r.name == CheckMark && userID in r.users
  }

  /** A message confirms the user when it carries the prompt marker, its
      reactions can be fetched, and they include the user's check mark. */
  predicate MessageConfirms(m: Message, channelID: string, userID: string,
                            getReactions: (string, string) -> Option<seq<Reaction>>)
  {
    && Contains(m.text, Marker)
    && getReactions(channelID, m.timestamp).Some?
    && ConfirmedBy(getReactions(channelID, m.timestamp).value, userID)
  }

  predicate Acknowledged(messages: seq<Message>, channelID: string, userID: string,
                         getReactions: (string, string) -> Option<seq<Reaction>>)
  {
    exists i :: 0 <= i < |messages| && MessageConfirms(messages[i], channelID, userID, getReactions)
  }

  /** The nested search of ack.go for the user's check mark: messages,
      then reactions, then reactors, leaving each inner loop at the first
      hit; a failed reaction fetch skips that message. */
  method CheckAcknowledged(messages: seq<Message>, channelID: string, userID: string,
                           getReactions: (string, string) -> Option<seq<Reaction>>)
    returns (acknowledged: bool)
    ensures acknowledged == Acknowledged(messages, channelID, userID, getReactions)
  {
    acknowledged := false;
    for i := 0 to |messages|
      invariant acknowledged ==
                exists k :: 0 <= k < i && MessageConfirms(messages[k], channelID, userID, getReactions)
    {
      var msg := messages[i];
      if Contains(msg.text, Marker) {
        var reactions := getReactions(channelID, msg.timestamp);
        if reactions.Some? {
          ghost var before := acknowledged;
          var rs := reactions.value;
          var j := 0;
          while j < |rs|
            invariant 0 <= j <= |rs|
            invariant acknowledged == (before || ConfirmedBy(rs[..j], userID))
          {
            var reaction := rs[j];
            assert rs[..j + 1] == rs[..j] + [reaction];
            if reaction.name == CheckMark {
              var k := 0;
              while k < |reaction.users|
                invariant 0 <= k <= |reaction.users|
                invariant acknowledged == (before || ConfirmedBy(rs[..j], userID))
                invariant userID !in reaction.users[..k]
              {
                if reaction.users[k] == userID {
                  acknowledged := true;
                  break;
                }
                assert reaction.users[..k + 1] == reaction.users[..k] + [reaction.users[k]];
                k := k + 1;
              }
              assert k == |reaction.users| ==> reaction.users[..k] == reaction.users;
            }
            assert acknowledged == (before || ConfirmedBy(rs[..j + 1], userID));
            if acknowledged {
              break;
            }
            j := j + 1;
          }
          assert j == |rs| ==> rs[..j] == rs;
          assert acknowledged == (before || ConfirmedBy(rs, userID));
        }
      }
    }
  }

  /** What the sweep concludes for one roster e-mail. */
  datatype Outcome = Skipped | Confirmed(userID: string) | Escalated(userID: string)

  /** The conversations.history request: the last 24 hours up to `now`,
      newest message only. */
  function HistoryWindow(channelID: string, now: int): Slack.HistoryQuery {
    Slack.HistoryQuery(channelID, now - WindowSeconds, now, HistoryLimit)
  }

  /** One roster e-mail: re-resolve the user, open the direct conversation,
      read the window; a failure at any step skips the user. */
  function SweepOutcome(email: string, dir: Slack.Directory, now: int): Outcome {
    match dir.getUserByEmail(email)
    case None => Skipped
    case Some(user) =>
      match dir.openConversation(user.id)
      case None => Skipped
      case Some(channelID) =>
        match dir.getConversationHistory(HistoryWindow(channelID, now))
        case None => Skipped
        case Some(messages) =>
          if Acknowledged(messages, channelID, user.id, dir.getReactions) then Confirmed(user.id)
          else Escalated(user.id)
  }

  /** The posts one outcome causes: a single escalation, or nothing. */
  function OutcomePosts(o: Outcome, cfg: Config): seq<Post> {
    if o.Escalated? then [EscalationPost(cfg, o.userID)] else []
  }

  /** The posts of a sweep that visits the e-mails in `order`. */
  function SweepPosts(order: seq<string>, cfg: Config, dir: Slack.Directory, now: int): seq<Post>
    decreases |order|
  {
    if order == [] then []
    else SweepPosts(order[..|order| - 1], cfg, dir, now)
         + OutcomePosts(SweepOutcome(order[|order| - 1], dir, now), cfg)
  }

  /** The body of the sweep for one e-mail; `continue` in the source is
      the fall-through of the nested conditionals here. */
  method CheckUser(client: Slack.Client, cfg: Config, email: string, dir: Slack.Directory,
                   windowStart: int, windowEnd: int)
    requires windowStart == windowEnd - WindowSeconds
    modifies client
    ensures client.outbox == old(client.outbox) + OutcomePosts(SweepOutcome(email, dir, windowEnd), cfg)
  {
    var user := dir.getUserByEmail(email);
    if user.Some? {
      var channel := dir.openConversation(user.value.id);
      if channel.Some? {
        var history := dir.getConversationHistory(
          Slack.HistoryQuery(channel.value, windowStart, windowEnd, HistoryLimit));
        if history.Some? {
          var acknowledged := CheckAcknowledged(history.value, channel.value, user.value.id, dir.getReactions);
          if !acknowledged {
            var msg := EscalationText(user.value.id);
            PostMessageToSlack(client, cfg.leaveChannelID, msg);
          }
        }
      }
    }
  }

  /** checkAcknowledgmentsFromPreviousRun. Only the roster's e-mails are
      used: the stored Slack ID and task flag play no part. */
  method CheckAcknowledgmentsFromPreviousRun(client: Slack.Client, cfg: Config,
                                             usersToCheck: map<string, RosterEntry>,
                                             dir: Slack.Directory, now: int)
    returns (ghost order: seq<string>)
    modifies client
    ensures Enumerates(order, usersToCheck.Keys)
    ensures client.outbox == old(client.outbox) + SweepPosts(order, cfg, dir, now)
  {
    var windowStart := now - WindowSeconds;
    var windowEnd := now;
    var remaining := usersToCheck.Keys;
    ghost var outbox0 := client.outbox;
    order := [];
    assert usersToCheck.Keys - remaining == {};
    while remaining != {}
      invariant remaining <= usersToCheck.Keys
      invariant Enumerates(order, usersToCheck.Keys - remaining)
      invariant client.outbox == outbox0 + SweepPosts(order, cfg, dir, now)
      decreases |remaining|
    {
      var email :| email in remaining;
      CheckUser(client, cfg, email, dir, windowStart, windowEnd);
      EnumeratesStep(order, usersToCheck.Keys, remaining, email);
      SweepOutboxStep(outbox0, order, email, cfg, dir, now);
      order := order + [email];
      remaining := remaining - {email};
    }
    assert usersToCheck.Keys - remaining == usersToCheck.Keys;
  }

  // ---------------------------------------------------------------------
  // Properties of the sweep

  lemma SweepPostsSnoc(order: seq<string>, email: string, cfg: Config, dir: Slack.Directory, now: int)
    ensures SweepPosts(order + [email], cfg, dir, now) ==
            SweepPosts(order, cfg, dir, now) + OutcomePosts(SweepOutcome(email, dir, now), cfg)
  {
    assert (order + [email])[..|order|] == order;
  }

  /** The outbox after one more e-mail of the sweep. */
  lemma SweepOutboxStep(outbox: seq<Post>, order: seq<string>, email: string, cfg: Config,
                        dir: Slack.Directory, now: int)
    ensures outbox + SweepPosts(order + [email], cfg, dir, now) ==
            outbox + SweepPosts(order, cfg, dir, now) + OutcomePosts(SweepOutcome(email, dir, now), cfg)
  {
    SweepPostsSnoc(order, email, cfg, dir, now);
  }

  lemma {:induction false} SweepPostsAppend(a: seq<string>, b: seq<string>, cfg: Config, dir: Slack.Directory, now: int)
    ensures SweepPosts(a + b, cfg, dir, now) == SweepPosts(a, cfg, dir, now) + SweepPosts(b, cfg, dir, now)
    decreases |b|
  {
    if b == [] {
      assert a + b == a;
    } else {
      var b' := b[..|b| - 1];
      assert (a + b)[..|a + b| - 1] == a + b';
      assert (a + b)[|a + b| - 1] == b[|b| - 1];
      SweepPostsAppend(a, b', cfg, dir, now);
    }
  }

  /** Each e-mail contributes exactly its own outcome's posts, wherever it
      stands in the order: one escalation if it is escalated, else none. */
  lemma SweepPostsAt(order: seq<string>, k: nat, cfg: Config, dir: Slack.Directory, now: int)
    requires k < |order|
    ensures SweepPosts(order, cfg, dir, now) ==
      SweepPosts(order[..k], cfg, dir, now)
      + OutcomePosts(SweepOutcome(order[k], dir, now), cfg)
      + SweepPosts(order[k + 1..], cfg, dir, now)
    ensures |OutcomePosts(SweepOutcome(order[k], dir, now), cfg)| ==
      if SweepOutcome(order[k], dir, now).Escalated? then 1 else 0
  {
    assert order == order[..k] + [order[k]] + order[k + 1..];
    SweepPostsAppend(order[..k] + [order[k]], order[k + 1..], cfg, dir, now);
    SweepPostsAppend(order[..k], [order[k]], cfg, dir, now);
    assert [order[k]][..0] == [];
  }

  /** The visiting order does not matter: any two orders of the same
      e-mails post the same escalations. */
  lemma {:induction false} SweepOrderIrrelevant(o1: seq<string>, o2: seq<string>, cfg: Config, dir: Slack.Directory, now: int)
    requires multiset(o1) == multiset(o2)
    ensures multiset(SweepPosts(o1, cfg, dir, now)) == multiset(SweepPosts(o2, cfg, dir, now))
    decreases |o1|
  {
    if o1 != [] {
      var x := o1[|o1| - 1];
      var init := o1[..|o1| - 1];
      assert o1 == init + [x];
      assert x in multiset(o2);
      var k :| 0 <= k < |o2| && o2[k] == x;
      var rest := o2[..k] + o2[k + 1..];
      RemoveOne(init, o2, k);
      SweepOrderIrrelevant(init, rest, cfg, dir, now);
      var px := OutcomePosts(SweepOutcome(x, dir, now), cfg);
      var before := SweepPosts(o2[..k], cfg, dir, now);
      var after := SweepPosts(o2[k + 1..], cfg, dir, now);
      SweepPostsSnoc(init, x, cfg, dir, now);
      SweepPostsAt(o2, k, cfg, dir, now);
      SweepPostsAppend(o2[..k], o2[k + 1..], cfg, dir, now);
      InsertedPermutes(SweepPosts(init, cfg, dir, now), before, px, after);
    } else {
      assert o2 == [];
    }
  }

  /** Adding the same block at the end of one sequence and in the middle
      of a permutation of it keeps the two permutations of each other. */
  lemma InsertedPermutes<T>(init: seq<T>, before: seq<T>, x: seq<T>, after: seq<T>)
    requires multiset(init) == multiset(before + after)
    ensures multiset(init + x) == multiset(before + x + after)
  {
    calc {
      multiset(init + x);
      multiset(init) + multiset(x);
      multiset(before) + multiset(after) + multiset(x);
      multiset(before + x + after);
    }
  }

  /** Taking the last e-mail of one order out of another order of the
      same e-mails leaves two orders of the same e-mails. */
  lemma RemoveOne(init: seq<string>, o2: seq<string>, k: nat)
    requires k < |o2| && multiset(init + [o2[k]]) == multiset(o2)
    ensures multiset(init) == multiset(o2[..k] + o2[k + 1..])
  {
    var x := o2[k];
    var rest := o2[..k] + o2[k + 1..];
    assert o2 == o2[..k] + [x] + o2[k + 1..];
    calc {
      multiset(init) + multiset{x};
      multiset(init + [x]);
      multiset(o2);
      multiset(o2[..k]) + multiset{x} + multiset(o2[k + 1..]);
      multiset(rest) + multiset{x};
    }
    assert multiset(init) == (multiset(init) + multiset{x}) - multiset{x};
    assert multiset(rest) == (multiset(rest) + multiset{x}) - multiset{x};
  }

  /** The number of e-mails of `order` whose outcome is an escalation. */
  function CountEscalated(order: seq<string>, dir: Slack.Directory, now: int): nat
    decreases |order|
  {
    if order == [] then 0
    else CountEscalated(order[..|order| - 1], dir, now)
         + (if SweepOutcome(order[|order| - 1], dir, now).Escalated? then 1 else 0)
  }

  /** Every sweep post is an escalation to the leave channel naming the
      re-resolved ID of an escalated e-mail, one per escalated e-mail. */
  lemma {:induction false} SweepPostsAreEscalations(order: seq<string>, cfg: Config, dir: Slack.Directory, now: int)
    ensures |SweepPosts(order, cfg, dir, now)| == CountEscalated(order, dir, now)
    ensures forall p :: p in SweepPosts(order, cfg, dir, now) ==>
              exists e :: e in order && SweepOutcome(e, dir, now).Escalated? &&
                          p == EscalationPost(cfg, SweepOutcome(e, dir, now).userID)
    ensures forall e :: e in order && SweepOutcome(e, dir, now).Escalated? ==>
              EscalationPost(cfg, SweepOutcome(e, dir, now).userID) in SweepPosts(order, cfg, dir, now)
    decreases |order|
  {
    if order != [] {
      var init := order[..|order| - 1];
      var x := order[|order| - 1];
      assert order == init + [x];
      SweepPostsAreEscalations(init, cfg, dir, now);
    }
  }

  /** A user is escalated when, and only when, the three lookups succeed
      and no inspected message confirms them; a failed reaction fetch for a
      marker message therefore never spares a user. */
  lemma EscalatedIff(email: string, dir: Slack.Directory, now: int)
    ensures SweepOutcome(email, dir, now).Escalated? <==>
      && dir.getUserByEmail(email).Some?
      && dir.openConversation(dir.getUserByEmail(email).value.id).Some?
      && var channelID := dir.openConversation(dir.getUserByEmail(email).value.id).value;
         && dir.getConversationHistory(HistoryWindow(channelID, now)).Some?
         && forall m :: m in dir.getConversationHistory(HistoryWindow(channelID, now)).value ==>
              || !Contains(m.text, Marker)
              || dir.getReactions(channelID, m.timestamp).None?
              || !ConfirmedBy(dir.getReactions(channelID, m.timestamp).value, dir.getUserByEmail(email).value.id)
  {
  }

  /** A message whose reactions cannot be fetched counts for nothing:
      dropping it does not change whether the user is acknowledged. */
  lemma ReactionFailureIgnored(messages: seq<Message>, i: nat, channelID: string, userID: string,
                               getReactions: (string, string) -> Option<seq<Reaction>>)
    requires i < |messages| && getReactions(channelID, messages[i].timestamp).None?
    ensures Acknowledged(messages, channelID, userID, getReactions) ==
            Acknowledged(messages[..i] + messages[i + 1..], channelID, userID, getReactions)
  {
    var rest := messages[..i] + messages[i + 1..];
    if Acknowledged(messages, channelID, userID, getReactions) {
      var k :| 0 <= k < |messages| && MessageConfirms(messages[k], channelID, userID, getReactions);
      if k < i {
        assert rest[k] == messages[k];
      } else {
        assert rest[k - 1] == messages[k];
      }
    }
    if Acknowledged(rest, channelID, userID, getReactions) {
      var k :| 0 <= k < |rest| && MessageConfirms(rest[k], channelID, userID, getReactions);
      if k < i {
        assert rest[k] == messages[k];
      } else {
        assert rest[k] == messages[k + 1];
      }
    }
  }

  /** Slack returns at most `limit` messages; with the limit of 1 the sweep
      looks at the newest message of the window only. */
  lemma NewestMessageOnly(email: string, dir: Slack.Directory, now: int, user: SlackUser, channelID: string)
    requires forall q :: dir.getConversationHistory(q).Some? ==> |dir.getConversationHistory(q).value| <= q.limit
    requires dir.getUserByEmail(email) == Some(user) && dir.openConversation(user.id) == Some(channelID)
    requires dir.getConversationHistory(HistoryWindow(channelID, now)).Some?
    ensures var messages := dir.getConversationHistory(HistoryWindow(channelID, now)).value;
      && |messages| <= 1
      && (SweepOutcome(email, dir, now) == Confirmed(user.id) <==>
            |messages| == 1 && MessageConfirms(messages[0], channelID, user.id, dir.getReactions))
  {
  }

  // ---------------------------------------------------------------------
  // Daily dispatch (sendAcknowledgmentMessagesForAllUsers)

  /** One prompt the dispatch sends, with the e-mail it was sent for. */
  datatype Prompt =
    | WithTasks(email: string, slackID: string, tasks: seq<Task>)
    | WithoutTasks(email: string, slackID: string)

  function PromptPost(p: Prompt): Post {
    match p
    case WithTasks(_, id, tasks) => Post(id, TaskPrompt(id, tasks), None)
    case WithoutTasks(_, id) => Post(id, NoTaskPrompt(id), None)
  }

  function PromptPosts(ps: seq<Prompt>): seq<Post>
    decreases |ps|
  {
    if ps == [] then [] else PromptPosts(ps[..|ps| - 1]) + [PromptPost(ps[|ps| - 1])]
  }

  /** The roster record a prompt leaves behind. */
  function EntryOf(p: Prompt): RosterEntry {
    RosterEntry(p.slackID, p.WithTasks?)
  }

  /** The roster after the prompts `ps`, a later write for the same e-mail
      replacing an earlier one. */
  function RosterOf(ps: seq<Prompt>): map<string, RosterEntry>
    decreases |ps|
  {
    if ps == [] then map[]
    else RosterOf(ps[..|ps| - 1])[ps[|ps| - 1].email := EntryOf(ps[|ps| - 1])]
  }

  /** The first loop: every task holder, in `order`, whose Slack account
      can be found by e-mail gets the task prompt; the others are skipped. */
  function TaskPhase(order: seq<string>, tasksByUser: map<string, seq<Task>>, dir: Slack.Directory): seq<Prompt>
    requires forall e :: e in order ==> e in tasksByUser
    decreases |order|
  {
    if order == [] then []
    else
      var email := order[|order| - 1];
      TaskPhase(order[..|order| - 1], tasksByUser, dir)
      + (if dir.getUserByEmail(email).Some?
         then [WithTasks(email, dir.getUserByEmail(email).value.id, tasksByUser[email])]
         else [])
  }

  lemma TaskPhaseSnoc(order: seq<string>, email: string, tasksByUser: map<string, seq<Task>>, dir: Slack.Directory)
    requires forall e :: e in order ==> e in tasksByUser
    requires email in tasksByUser
    ensures TaskPhase(order + [email], tasksByUser, dir) ==
      TaskPhase(order, tasksByUser, dir)
      + (if dir.getUserByEmail(email).Some?
         then [WithTasks(email, dir.getUserByEmail(email).value.id, tasksByUser[email])]
         else [])
  {
    assert (order + [email])[..|order|] == order;
  }

  /** The second loop: every organisation user with an e-mail and no
      tasks gets the no-task prompt. */
  function NoTaskPhase(users: seq<SlackUser>, tasksByUser: map<string, seq<Task>>): seq<Prompt>
    decreases |users|
  {
    if users == [] then []
    else
      var user := users[|users| - 1];
      NoTaskPhase(users[..|users| - 1], tasksByUser)
      + (if user.email == "" || user.email in tasksByUser then [] else [WithoutTasks(user.email, user.id)])
  }

  lemma NoTaskPhaseStep(users: seq<SlackUser>, i: nat, tasksByUser: map<string, seq<Task>>)
    requires i < |users|
    ensures NoTaskPhase(users[..i + 1], tasksByUser) ==
      NoTaskPhase(users[..i], tasksByUser)
      + (if users[i].email == "" || users[i].email in tasksByUser then [] else [WithoutTasks(users[i].email, users[i].id)])
  {
    assert users[..i + 1][..i] == users[..i];
  }

  function DispatchPrompts(order: seq<string>, tasksByUser: map<string, seq<Task>>,
                           users: seq<SlackUser>, dir: Slack.Directory): seq<Prompt>
    requires forall e :: e in order ==> e in tasksByUser
  {
    TaskPhase(order, tasksByUser, dir) + NoTaskPhase(users, tasksByUser)
  }

  lemma PromptsSnoc(ps: seq<Prompt>, p: Prompt)
    ensures PromptPosts(ps + [p]) == PromptPosts(ps) + [PromptPost(p)]
    ensures RosterOf(ps + [p]) == RosterOf(ps)[p.email := EntryOf(p)]
  {
    assert (ps + [p])[..|ps|] == ps;
  }

  /** One more prompt after `prompts + added` updates the roster for its e-mail. */
  lemma RosterAfter(prompts: seq<Prompt>, added: seq<Prompt>, p: Prompt)
    ensures RosterOf(prompts + (added + [p])) == RosterOf(prompts + added)[p.email := EntryOf(p)]
  {
    PromptsSnoc(prompts + added, p);
    AppendAssoc(prompts, added, [p]);
  }

  /** One more prompt adds its post at the end of the outbox. */
  lemma OutboxStep(outbox: seq<Post>, ps: seq<Prompt>, p: Prompt)
    ensures outbox + PromptPosts(ps + [p]) == outbox + PromptPosts(ps) + [PromptPost(p)]
  {
    PromptsSnoc(ps, p);
  }

  lemma {:induction false} PromptPostsAppend(a: seq<Prompt>, b: seq<Prompt>)
    ensures PromptPosts(a + b) == PromptPosts(a) + PromptPosts(b)
    decreases |b|
  {
    if b == [] {
      assert a + b == a;
    } else {
      var b' := b[..|b| - 1];
      assert (a + b)[..|a + b| - 1] == a + b';
      assert (a + b)[|a + b| - 1] == b[|b| - 1];
      PromptPostsAppend(a, b');
    }
  }

  /** The body of the first loop for one task holder. */
  method PromptTaskHolder(client: Slack.Client, email: string, tasks: seq<Task>, dir: Slack.Directory)
    returns (user: Option<SlackUser>)
    modifies client
    ensures user == dir.getUserByEmail(email)
    ensures user.Some? ==>
              client.outbox == old(client.outbox) + [PromptPost(WithTasks(email, user.value.id, tasks))]
    ensures user.None? ==> client.outbox == old(client.outbox)
  {
    user := dir.getUserByEmail(email);
    if user.Some? {
      SendTaskMessage(client, user.value.id, tasks);
    }
  }

  /** The first loop of the dispatch, over the task map. */
  method PromptTaskHolders(client: Slack.Client, tasksByUser: map<string, seq<Task>>, dir: Slack.Directory)
    returns (usersToCheck: map<string, RosterEntry>, ghost taskOrder: seq<string>)
    modifies client
    ensures Enumerates(taskOrder, tasksByUser.Keys)
    ensures forall e :: e in taskOrder ==> e in tasksByUser
    ensures usersToCheck == RosterOf(TaskPhase(taskOrder, tasksByUser, dir))
    ensures client.outbox == old(client.outbox) + PromptPosts(TaskPhase(taskOrder, tasksByUser, dir))
  {
    usersToCheck := map[];
    ghost var outbox0 := client.outbox;
    ghost var prompts: seq<Prompt> := [];
    var remaining := tasksByUser.Keys;
    taskOrder := [];
    assert tasksByUser.Keys - remaining == {};
    while remaining != {}
      invariant remaining <= tasksByUser.Keys
      invariant Enumerates(taskOrder, tasksByUser.Keys - remaining)
      invariant forall e :: e in taskOrder ==> e in tasksByUser
      invariant prompts == TaskPhase(taskOrder, tasksByUser, dir)
      invariant usersToCheck == RosterOf(prompts)
      invariant client.outbox == outbox0 + PromptPosts(prompts)
      decreases |remaining|
    {
      var email :| email in remaining;
      TaskPhaseSnoc(taskOrder, email, tasksByUser, dir);
      var user := PromptTaskHolder(client, email, tasksByUser[email], dir);
      if user.Some? {
        usersToCheck := usersToCheck[email := RosterEntry(user.value.id, true)];
        ghost var p := WithTasks(email, user.value.id, tasksByUser[email]);
        PromptsSnoc(prompts, p);
        OutboxStep(outbox0, prompts, p);
        prompts := prompts + [p];
      }
      EnumeratesStep(taskOrder, tasksByUser.Keys, remaining, email);
      taskOrder := taskOrder + [email];
      remaining := remaining - {email};
    }
    assert tasksByUser.Keys - remaining == tasksByUser.Keys;
  }

  /** The second loop of the dispatch, over the organisation's users;
      `prompts` is the history of the roster handed in. */
  method PromptUsersWithoutTasks(client: Slack.Client, allUsers: seq<SlackUser>,
                                 tasksByUser: map<string, seq<Task>>,
                                 usersToCheck: map<string, RosterEntry>, ghost prompts: seq<Prompt>)
    returns (roster: map<string, RosterEntry>)
    requires usersToCheck == RosterOf(prompts)
    modifies client
    ensures roster == RosterOf(prompts + NoTaskPhase(allUsers, tasksByUser))
    ensures client.outbox == old(client.outbox) + PromptPosts(NoTaskPhase(allUsers, tasksByUser))
  {
    roster := usersToCheck;
    ghost var outbox0 := client.outbox;
    ghost var added: seq<Prompt> := [];
    assert prompts + added == prompts;
    for i := 0 to |allUsers|
      invariant added == NoTaskPhase(allUsers[..i], tasksByUser)
      invariant roster == RosterOf(prompts + added)
      invariant client.outbox == outbox0 + PromptPosts(added)
    {
      var user := allUsers[i];
      NoTaskPhaseStep(allUsers, i, tasksByUser);
      var email := user.email;
      if email != "" && email !in tasksByUser {
        ghost var p := WithoutTasks(email, user.id);
        roster := roster[email := RosterEntry(user.id, false)];
        SendNoTaskMessage(client, user.id);
        RosterAfter(prompts, added, p);
        OutboxStep(outbox0, added, p);
        added := added + [p];
      } else {
        assert added + [] == added;
      }
    }
    assert allUsers[..|allUsers|] == allUsers;
  }

  /** sendAcknowledgmentMessagesForAllUsers: prompt every task holder, then
      every organisation user without tasks, record each in the roster, and
      run the sweep on that roster. A failed Jira fetch behaves as an empty
      map or list, as ranging over Go's nil does. */
  method SendAcknowledgmentMessagesForAllUsers(client: Slack.Client, cfg: Config, jira: Jira.JiraApi,
                                               dir: Slack.Directory, now: int)
    returns (ghost taskOrder: seq<string>, ghost sweepOrder: seq<string>)
    modifies client
    ensures var tasksByUser := Jira.TodaysPlanTasks(cfg, jira).GetOr(map[]);
            && Enumerates(taskOrder, tasksByUser.Keys)
            && (forall e :: e in taskOrder ==> e in tasksByUser)
            && var prompts := DispatchPrompts(taskOrder, tasksByUser,
                                              Jira.OrgSlackUsers(cfg, jira, dir).GetOr([]), dir);
               && Enumerates(sweepOrder, RosterOf(prompts).Keys)
               && client.outbox == old(client.outbox) + PromptPosts(prompts) + SweepPosts(sweepOrder, cfg, dir, now)
  {
    var tasksOpt := Jira.FetchTodaysPlanTasks(cfg, jira);
    var tasksByUser := tasksOpt.GetOr(map[]);
    var usersOpt := Jira.FetchJiraOrgSlackUsers(cfg, jira, dir);
    var allUsers := usersOpt.GetOr([]);
    ghost var start := client.outbox;
    var usersToCheck;
    usersToCheck, taskOrder := PromptTaskHolders(client, tasksByUser, dir);
    ghost var taskPrompts := TaskPhase(taskOrder, tasksByUser, dir);
    ghost var noTaskPrompts := NoTaskPhase(allUsers, tasksByUser);
    usersToCheck := PromptUsersWithoutTasks(client, allUsers, tasksByUser, usersToCheck, taskPrompts);
    ghost var prompts := DispatchPrompts(taskOrder, tasksByUser, allUsers, dir);
    assert prompts == taskPrompts + noTaskPrompts;
    PromptPostsAppend(taskPrompts, noTaskPrompts);
    AppendAssoc(start, PromptPosts(taskPrompts), PromptPosts(noTaskPrompts));
    sweepOrder := CheckAcknowledgmentsFromPreviousRun(client, cfg, usersToCheck, dir, now);
  }

  // ---------------------------------------------------------------------
  // Properties of the dispatch

  /** The outbox holds the prompts' posts in order, one post per prompt. */
  lemma {:induction false} PromptPostsAt(ps: seq<Prompt>)
    ensures |PromptPosts(ps)| == |ps|
    ensures forall i :: 0 <= i < |ps| ==> PromptPosts(ps)[i] == PromptPost(ps[i])
    decreases |ps|
  {
    if ps != [] {
      var init := ps[..|ps| - 1];
      PromptPostsAt(init);
      assert PromptPosts(ps) == PromptPosts(init) + [PromptPost(ps[|ps| - 1])];
      forall i | 0 <= i < |ps|
        ensures PromptPosts(ps)[i] == PromptPost(ps[i])
      {
        if i < |init| {
          assert ps[i] == init[i];
        }
      }
    }
  }

  /** Every task prompt goes to a task holder of `order` whose Slack
      account was found, carrying that holder's task list; each such holder
      is prompted as often as it occurs in `order`. */
  lemma {:induction false} TaskPhaseFacts(order: seq<string>, tasksByUser: map<string, seq<Task>>, dir: Slack.Directory)
    requires forall e :: e in order ==> e in tasksByUser
    ensures forall p :: p in TaskPhase(order, tasksByUser, dir) ==>
      && p.WithTasks? && p.email in order
      && dir.getUserByEmail(p.email).Some?
      && p.slackID == dir.getUserByEmail(p.email).value.id
      && p.tasks == tasksByUser[p.email]
    ensures forall e :: e in tasksByUser && dir.getUserByEmail(e).Some? ==>
      multiset(TaskPhase(order, tasksByUser, dir))[WithTasks(e, dir.getUserByEmail(e).value.id, tasksByUser[e])]
      == multiset(order)[e]
    decreases |order|
  {
    if order != [] {
      var init := order[..|order| - 1];
      var x := order[|order| - 1];
      assert order == init + [x];
      TaskPhaseFacts(init, tasksByUser, dir);
    }
  }

  /** Every no-task prompt goes to an organisation user with an e-mail and
      no tasks, and every such user gets one. */
  lemma {:induction false} NoTaskPhaseFacts(users: seq<SlackUser>, tasksByUser: map<string, seq<Task>>)
    ensures forall p :: p in NoTaskPhase(users, tasksByUser) ==>
      p.WithoutTasks? && p.email != "" && p.email !in tasksByUser && SlackUser(p.slackID, p.email) in users
    ensures forall u :: u in users && u.email != "" && u.email !in tasksByUser ==>
      WithoutTasks(u.email, u.id) in NoTaskPhase(users, tasksByUser)
    decreases |users|
  {
    if users != [] {
      var init := users[..|users| - 1];
      assert users == init + [users[|users| - 1]];
      NoTaskPhaseFacts(init, tasksByUser);
    }
  }

  /** The roster holds exactly the prompted e-mails, each with the record
      of one of its prompts. */
  lemma {:induction false} RosterOfFacts(ps: seq<Prompt>)
    ensures forall e :: e in RosterOf(ps) <==> exists p :: p in ps && p.email == e
    ensures forall e :: e in RosterOf(ps) ==>
      exists p :: p in ps && p.email == e && RosterOf(ps)[e] == EntryOf(p)
    decreases |ps|
  {
    if ps != [] {
      var init := ps[..|ps| - 1];
      var last := ps[|ps| - 1];
      assert ps == init + [last];
      RosterOfFacts(init);
      forall e | e in RosterOf(ps)
        ensures exists p :: p in ps && p.email == e && RosterOf(ps)[e] == EntryOf(p)
      {
        if e == last.email {
          assert last in ps;
        } else {
          assert RosterOf(ps) == RosterOf(init)[last.email := EntryOf(last)];
          assert e in RosterOf(init) && RosterOf(ps)[e] == RosterOf(init)[e];
          var p :| p in init && p.email == e && RosterOf(init)[e] == EntryOf(p);
          assert p in ps;
        }
      }
    }
  }

  /** The roster the dispatch hands to the sweep: a task holder is in it
      exactly when their Slack account was found, with their Slack ID and
      the task flag set; every other entry is an organisation user with an
      e-mail and no tasks; every such user is in it; and an entry carries
      the task flag exactly when its e-mail holds tasks. */
  lemma DispatchRoster(order: seq<string>, tasksByUser: map<string, seq<Task>>,
                       users: seq<SlackUser>, dir: Slack.Directory)
    requires forall e :: e in order ==> e in tasksByUser
    requires Enumerates(order, tasksByUser.Keys)
    ensures var ps := DispatchPrompts(order, tasksByUser, users, dir);
      forall e :: e in RosterOf(ps) <==> exists p :: p in ps && p.email == e
    ensures var roster := RosterOf(DispatchPrompts(order, tasksByUser, users, dir));
      && (forall e :: e in tasksByUser ==> (e in roster <==> dir.getUserByEmail(e).Some?))
      && (forall e :: e in tasksByUser && e in roster ==>
            roster[e] == RosterEntry(dir.getUserByEmail(e).value.id, true))
      && (forall e :: e in roster && e !in tasksByUser ==>
            e != "" && !roster[e].hasTasks && SlackUser(roster[e].slackID, e) in users)
      && (forall u :: u in users && u.email != "" && u.email !in tasksByUser ==> u.email in roster)
      && (forall e :: e in roster ==> (roster[e].hasTasks <==> e in tasksByUser))
  {
    var tp := TaskPhase(order, tasksByUser, dir);
    var np := NoTaskPhase(users, tasksByUser);
    var ps := tp + np;
    TaskPhaseFacts(order, tasksByUser, dir);
    NoTaskPhaseFacts(users, tasksByUser);
    RosterOfFacts(ps);
    var roster := RosterOf(ps);
    forall e | e in tasksByUser && dir.getUserByEmail(e).Some?
      ensures e in roster
    {
      assert multiset(order)[e] == 1;
      assert WithTasks(e, dir.getUserByEmail(e).value.id, tasksByUser[e]) in tp;
    }
    forall u | u in users && u.email != "" && u.email !in tasksByUser
      ensures u.email in roster
    {
      assert WithoutTasks(u.email, u.id) in ps;
    }
  }

  /** Each task holder whose account is found gets exactly one prompt, the
      task prompt; a task holder whose account is not found gets none; no
      task holder ever gets the no-task prompt. */
  lemma DispatchPromptCounts(order: seq<string>, tasksByUser: map<string, seq<Task>>,
                             users: seq<SlackUser>, dir: Slack.Directory)
    requires forall e :: e in order ==> e in tasksByUser
    requires Enumerates(order, tasksByUser.Keys)
    ensures var ps := DispatchPrompts(order, tasksByUser, users, dir);
      && (forall e :: e in tasksByUser && dir.getUserByEmail(e).Some? ==>
            multiset(ps)[WithTasks(e, dir.getUserByEmail(e).value.id, tasksByUser[e])] == 1)
      && (forall p :: p in ps && p.email in tasksByUser ==>
            p.WithTasks? && dir.getUserByEmail(p.email).Some? &&
            p == WithTasks(p.email, dir.getUserByEmail(p.email).value.id, tasksByUser[p.email]))
      && (forall p :: p in ps ==> (p.WithTasks? <==> p.email in tasksByUser))
  {
    var tp := TaskPhase(order, tasksByUser, dir);
    var np := NoTaskPhase(users, tasksByUser);
    TaskPhaseFacts(order, tasksByUser, dir);
    NoTaskPhaseFacts(users, tasksByUser);
    forall e | e in tasksByUser && dir.getUserByEmail(e).Some?
      ensures multiset(tp + np)[WithTasks(e, dir.getUserByEmail(e).value.id, tasksByUser[e])] == 1
    {
      var p := WithTasks(e, dir.getUserByEmail(e).value.id, tasksByUser[e]);
      assert multiset(order)[e] == 1;
      assert p !in np;
      assert multiset(np)[p] == 0;
    }
  }

  /** Given non-empty task lists, as the Jira grouping produces, every
      prompt of the dispatch carries the marker the sweep looks for. */
  lemma DispatchPromptsCarryMarker(order: seq<string>, tasksByUser: map<string, seq<Task>>,
                                   users: seq<SlackUser>, dir: Slack.Directory)
    requires forall e :: e in order ==> e in tasksByUser
    requires forall e :: e in tasksByUser ==> tasksByUser[e] != []
    ensures forall p :: p in DispatchPrompts(order, tasksByUser, users, dir) ==>
      Contains(PromptPost(p).text, Marker)
  {
    TaskPhaseFacts(order, tasksByUser, dir);
    NoTaskPhaseFacts(users, tasksByUser);
    forall p | p in DispatchPrompts(order, tasksByUser, users, dir)
      ensures Contains(PromptPost(p).text, Marker)
    {
      if p.WithTasks? {
        assert p in TaskPhase(order, tasksByUser, dir);
        PromptsCarryMarker(p.slackID, p.tasks);
      } else {
        PromptsCarryMarker(p.slackID, []);
      }
    }
  }
}
