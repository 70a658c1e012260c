/**
 Reachability: while two consumers stay connected with their inboxes registered, a chat that an invite put in
 one's ledger reaches the other, at once or as soon as the invite still in flight is handled.
 */
module ChatReachability {
  import opened Options
  import opened ChatIds
  import opened PrivateChats
  import opened ChatSystem

  /** If `a` has a chat with `b`, then `b` is in its group or the invite carrying it is still on its way. */
  ghost predicate Linked(s: State, a: string, b: string)
    requires {a, b} <= s.conns.Keys && b in s.queues
  {
    b in s.conns[a].chats ==>
      var g := s.conns[a].chats[b];
      g in s.conns[b].groups || InviteEvent(a, g) in s.queues[b]
  }

  /** `a` is in the group of every invite it has on its way to `b`. */
  ghost predicate Backed(s: State, a: string, b: string)
    requires {a, b} <= s.conns.Keys && b in s.queues
  {
    forall g :: InviteEvent(a, g) in s.queues[b] ==> g in s.conns[a].groups
  }

  /** A connected consumer with its inbox registered, in the group of every chat of its ledger. */
  ghost predicate Settled(s: State, a: string) {
    && a in s.conns && a in s.queues && s.conns[a].id == a && a !in s.bots
    && Inbox(a) in s.conns[a].groups
    && forall p :: p in s.conns[a].chats ==> s.conns[a].chats[p] in s.conns[a].groups
  }

  /**
   Both are settled, and so are the chats with the other of those in `begun`: the ones that have opened or
   accepted such a chat since.
   */
  ghost predicate Pair(s: State, a: string, b: string, begun: set<string>) {
    && a != b && Settled(s, a) && Settled(s, b) && Backed(s, a, b) && Backed(s, b, a)
    && (a in begun ==> Linked(s, a, b))
    && (b in begun ==> Linked(s, b, a))
  }

  predicate Partners(id: string, other: string, a: string, b: string) {
    (id == a && other == b) || (id == b && other == a)
  }

  /** Which of the two, if any, writes the other into its ledger in this step, on an invite in either direction. */
  function OpenedBy(s: State, step: Step, a: string, b: string): set<string> {
    match step
    case SendInvite(id, request, access) =>
      if id in s.conns && OutcomeOf(s, id, request, access).OPENED?
         && Partners(id, OutcomeOf(s, id, request, access).target, a, b) then {id} else {}
    case Receive(id, InviteEvent(from, group)) =>
      if id in s.conns && id in s.queues && InviteEvent(from, group) in s.queues[id] && Partners(id, from, a, b) then {id}
      else {}
    case _ => {}
  }

  function OpenedDuring(s: State, steps: seq<Step>, a: string, b: string): set<string> {
    if steps == [] then {}
    else
      var before := steps[..|steps| - 1];
      OpenedDuring(s, before, a, b) + OpenedBy(After(s, before), steps[|steps| - 1], a, b)
  }

  /** The step leaves both connections up and neither user a bot. */
  predicate Quiet(step: Step, a: string, b: string) {
    match step
    case Disconnect(id) => id !in {a, b}
    case Crash(id) => id !in {a, b}
    case SetBots(ids) => a !in ids && b !in ids
    case _ => true
  }

  /** Those of the two that have no chat with the other. */
  function Strangers(s: State, a: string, b: string): set<string>
    requires {a, b} <= s.conns.Keys
  {
    (if b in s.conns[a].chats then {} else {a}) + (if a in s.conns[b].chats then {} else {b})
  }

  /** Two registered consumers with no invite between them in flight, whatever chats they have restored. */
  lemma SettledArePaired(s: State, a: string, b: string)
    requires a != b && Settled(s, a) && Settled(s, b)
    requires forall g :: InviteEvent(a, g) !in s.queues[b] && InviteEvent(b, g) !in s.queues[a]
    ensures Pair(s, a, b, Strangers(s, a, b))
  {
  }

  /** Connections unchanged; queues only grow, and by no invite between the two whose sender is not in its group. */
  ghost predicate OnlyNotices(s: State, s': State, a: string, b: string) {
    && s'.conns == s.conns && s'.bots == s.bots && s'.queues.Keys == s.queues.Keys
    && (forall id, e :: id in s.queues && e in s.queues[id] ==> e in s'.queues[id])
    && (forall g :: b in s.queues && InviteEvent(a, g) in s'.queues[b] ==>
          InviteEvent(a, g) in s.queues[b] || (a in s.conns && g in s.conns[a].groups))
    && (forall g :: a in s.queues && InviteEvent(b, g) in s'.queues[a] ==>
          InviteEvent(b, g) in s.queues[a] || (b in s.conns && g in s.conns[b].groups))
  }

  lemma NoticesKeep(s: State, s': State, a: string, b: string, begun: set<string>)
    requires Pair(s, a, b, begun) && OnlyNotices(s, s', a, b)
    ensures Pair(s', a, b, begun)
  {
  }

  lemma SendIsNotice(s: State, group: string, e: Event, a: string, b: string)
    requires e.InviteEvent? && e.from in {a, b} ==> IsMember(s, e.from, e.group)
    ensures OnlyNotices(s, Send(s, group, e), a, b)
  {
    var s' := Send(s, group, e);
    forall id, x | id in s.queues ensures x in s'.queues[id] <==> x in s.queues[id] || (x == e && IsMember(s, id, group)) {
      SendAdds(s, group, e, id, x);
    }
  }

  lemma SendAdds(s: State, group: string, e: Event, id: string, x: Event)
    requires id in s.queues
    ensures x in Send(s, group, e).queues[id] <==> x in s.queues[id] || (x == e && IsMember(s, id, group))
  {
  }

  lemma AnnounceIsNotice(s: State, sender: string, groups: set<string>, a: string, b: string)
    ensures OnlyNotices(s, Announce(s, sender, groups), a, b)
  {
  }

  lemma NotifyIsNotice(s: State, sender: string, chats: map<string, string>, a: string, b: string)
    ensures OnlyNotices(s, NotifyPartners(s, sender, chats), a, b)
  {
  }

  /** What happens to the connection of a third consumer is of no concern to the two. */
  lemma OthersKeep(s: State, s': State, a: string, b: string, begun: set<string>)
    requires Pair(s, a, b, begun) && s'.bots == s.bots
    requires forall x :: x in {a, b} ==>
      x in s'.conns && x in s'.queues && s'.conns[x] == s.conns[x] && s'.queues[x] == s.queues[x]
    ensures Pair(s', a, b, begun)
  {
    assert a in {a, b} && b in {a, b};
  }

  /** A consumer that gains groups, or loses ledger entries, keeps every chat reachable. */
  lemma GrowGroupsKeeps(s: State, id: string, c: Conn, a: string, b: string, begun: set<string>)
    requires Pair(s, a, b, begun) && id in s.conns
    requires c.id == s.conns[id].id && s.conns[id].groups <= c.groups
    requires forall p :: p in c.chats ==> p in s.conns[id].chats && c.chats[p] == s.conns[id].chats[p]
    ensures Pair(s.(conns := s.conns[id := c]), a, b, begun)
  {
  }

  /** An invite handled or made: the partner is in the group, or will be. */
  lemma TakeKeeps(s: State, id: string, partner: string, group: string, a: string, b: string, begun: set<string>)
    requires Pair(s, a, b, begun) && id in s.conns
    requires id == a && partner == b ==> group in s.conns[b].groups || InviteEvent(a, group) in s.queues[b]
    requires id == b && partner == a ==> group in s.conns[a].groups || InviteEvent(b, group) in s.queues[a]
    ensures Pair(DoTake(s, id, partner, group), a, b, begun + if Partners(id, partner, a, b) then {id} else {})
  {
  }

  lemma PairSwaps(s: State, a: string, b: string, begun: set<string>)
    requires Pair(s, a, b, begun)
    ensures Pair(s, b, a, begun)
  {
  }

  /** An invite from `a` to `b` is in flight before anything can be sent to its group. */
  lemma OfferToPartnerKeeps(s: State, a: string, b: string, group: string, begun: set<string>)
    requires Pair(s, a, b, begun)
    ensures Pair(OfferChat(DoTake(s, a, b, group), a, b, group), a, b, begun + {a})
  {
    var taken := DoTake(s, a, b, group);
    var sent := Send(taken, Inbox(b), InviteEvent(a, group));
    assert InviteEvent(a, group) in sent.queues[b];
    assert forall id, e :: id in taken.queues && e in taken.queues[id] ==> e in sent.queues[id];
    assert Pair(sent, a, b, begun + {a});
    SendIsNotice(sent, group, GroupEvent(a, group), a, b);
    NoticesKeep(sent, Send(sent, group, GroupEvent(a, group)), a, b, begun + {a});
  }

  lemma OfferKeeps(s: State, id: string, target: string, group: string, a: string, b: string, begun: set<string>)
    requires Pair(s, a, b, begun) && IsMember(s, id, group)
    ensures Pair(OfferChat(s, id, target, group), a, b, begun)
  {
    var sent := Send(s, Inbox(target), InviteEvent(id, group));
    SendIsNotice(s, Inbox(target), InviteEvent(id, group), a, b);
    NoticesKeep(s, sent, a, b, begun);
    SendIsNotice(sent, group, GroupEvent(id, group), a, b);
    NoticesKeep(sent, Send(sent, group, GroupEvent(id, group)), a, b, begun);
  }

  lemma PerformKeeps(s: State, id: string, outcome: Outcome, a: string, b: string, begun: set<string>)
    requires Pair(s, a, b, begun) && id in s.conns
    requires outcome.OPENED? && outcome.target in {a, b} ==> outcome.notify
    ensures Pair(Perform(s, id, outcome), a, b,
                 begun + if outcome.OPENED? && Partners(id, outcome.target, a, b) then {id} else {})
  {
    match outcome
    case OFFLINE(target, group) =>
      SendIsNotice(s, Inbox(id), OfflineEvent(target, group), a, b);
      NoticesKeep(s, Send(s, Inbox(id), OfflineEvent(target, group)), a, b, begun);
    case OPENED(target, group, notify) =>
      if Partners(id, target, a, b) {
        OfferBetweenKeeps(s, id, target, group, a, b, begun);
      } else {
        TakeKeeps(s, id, target, group, a, b, begun);
        if notify {
          OfferOwnKeeps(s, id, target, group, a, b, begun);
        }
      }
    case _ =>
  }

  lemma OfferBetweenKeeps(s: State, id: string, target: string, group: string, a: string, b: string, begun: set<string>)
    requires Pair(s, a, b, begun) && Partners(id, target, a, b)
    ensures Pair(OfferChat(DoTake(s, id, target, group), id, target, group), a, b, begun + {id})
  {
    if id == a {
      OfferToPartnerKeeps(s, a, b, group, begun);
    } else {
      PairSwaps(s, a, b, begun);
      OfferToPartnerKeeps(s, b, a, group, begun);
      PairSwaps(OfferChat(DoTake(s, b, a, group), b, a, group), b, a, begun + {b});
    }
  }

  lemma OfferOwnKeeps(s: State, id: string, target: string, group: string, a: string, b: string, begun: set<string>)
    requires id in s.conns && Pair(DoTake(s, id, target, group), a, b, begun)
    ensures Pair(OfferChat(DoTake(s, id, target, group), id, target, group), a, b, begun)
  {
    assert group in Take(s.conns[id], target, group).groups;
    OfferKeeps(DoTake(s, id, target, group), id, target, group, a, b, begun);
  }

  lemma InviteKeeps(s: State, id: string, request: Option<string>, access: Access, a: string, b: string, begun: set<string>)
    requires Pair(s, a, b, begun) && id in s.conns
    ensures Pair(DoInvite(s, id, request, access), a, b, begun + OpenedBy(s, SendInvite(id, request, access), a, b))
  {
    PerformKeeps(s, id, OutcomeOf(s, id, request, access), a, b, begun);
  }

  lemma DequeueKeeps(s: State, id: string, e: Event, a: string, b: string, begun: set<string>)
    requires Pair(s, a, b, begun) && id in s.queues && e in s.queues[id]
    requires e.InviteEvent? && id == a && e.from == b ==> e.group in s.conns[a].groups
    requires e.InviteEvent? && id == b && e.from == a ==> e.group in s.conns[b].groups
    ensures Pair(Dequeue(s, id, e), a, b, begun)
  {
    assert forall x :: x in s.queues[id] && x != e ==> x in Dequeue(s, id, e).queues[id];
  }

  /** Handling the partner's invite turns "on its way" into "in the group". */
  lemma AcceptKeeps(s: State, id: string, from: string, group: string, a: string, b: string, begun: set<string>)
    requires Pair(s, a, b, begun) && id in s.conns && id in s.queues && InviteEvent(from, group) in s.queues[id]
    ensures Pair(DoTake(Dequeue(s, id, InviteEvent(from, group)), id, from, group), a, b,
                 begun + if Partners(id, from, a, b) then {id} else {})
  {
    var joined := Join(s, id, group);
    GrowGroupsKeeps(s, id, joined.conns[id], a, b, begun);
    AcceptJoinedKeeps(joined, id, from, group, a, b, begun);
    JoiningFirst(s, id, from, group);
  }

  function Join(s: State, id: string, group: string): State
    requires id in s.conns
  {
    s.(conns := s.conns[id := s.conns[id].(groups := s.conns[id].groups + {group})])
  }

  lemma AcceptJoinedKeeps(s: State, id: string, from: string, group: string, a: string, b: string, begun: set<string>)
    requires Pair(s, a, b, begun) && IsMember(s, id, group) && id in s.queues && InviteEvent(from, group) in s.queues[id]
    ensures Pair(DoTake(Dequeue(s, id, InviteEvent(from, group)), id, from, group), a, b,
                 begun + if Partners(id, from, a, b) then {id} else {})
  {
    DequeueKeeps(s, id, InviteEvent(from, group), a, b, begun);
    TakeKeeps(Dequeue(s, id, InviteEvent(from, group)), id, from, group, a, b, begun);
  }

  /** Joining the group before the invite is handled makes no difference afterwards. */
  lemma JoiningFirst(s: State, id: string, from: string, group: string)
    requires id in s.conns && id in s.queues
    ensures DoTake(Dequeue(Join(s, id, group), id, InviteEvent(from, group)), id, from, group)
         == DoTake(Dequeue(s, id, InviteEvent(from, group)), id, from, group)
  {
    var before, after := Take(Join(s, id, group).conns[id], from, group), Take(s.conns[id], from, group);
    assert before.groups == after.groups;
    assert Join(s, id, group).conns[id := before] == s.conns[id := after];
  }

  lemma ReceiveKeeps(s: State, id: string, e: Event, a: string, b: string, begun: set<string>)
    requires Pair(s, a, b, begun) && id in s.conns && id in s.queues && e in s.queues[id]
    ensures Pair(DoReceive(s, id, e), a, b, begun + OpenedBy(s, Receive(id, e), a, b))
  {
    match e
    case InviteEvent(from, group) => AcceptKeeps(s, id, from, group, a, b, begun);
    case OfflineEvent(user, _) =>
      DequeueKeeps(s, id, e, a, b, begun);
      GrowGroupsKeeps(Dequeue(s, id, e), id, s.conns[id].(chats := s.conns[id].chats - {user}), a, b, begun);
    case GroupEvent(_, _) => DequeueKeeps(s, id, e, a, b, begun);
  }

  lemma ConnectKeeps(s: State, id: string, live: set<string>, a: string, b: string, begun: set<string>)
    requires Pair(s, a, b, begun) && id !in s.conns
    ensures Pair(DoConnect(s, id, live), a, b, begun)
  {
    var joined := Joined(s, id, live);
    OthersKeep(s, joined, a, b, begun);
    AnnounceIsNotice(joined, id, Connected(id, HashOf(s, id), live).groups, a, b);
    NoticesKeep(joined, DoConnect(s, id, live), a, b, begun);
  }

  lemma DisconnectKeeps(s: State, id: string, a: string, b: string, begun: set<string>)
    requires Pair(s, a, b, begun) && id in s.conns && id !in {a, b}
    ensures Pair(DoDisconnect(s, id), a, b, begun)
  {
    var c := s.conns[id];
    var told := NotifyPartners(s, id, c.chats);
    NotifyIsNotice(s, id, c.chats, a, b);
    NoticesKeep(s, told, a, b, begun);
    OthersKeep(told, Drop(told, id), a, b, begun);
    AnnounceIsNotice(Drop(told, id), id, c.groups, a, b);
    NoticesKeep(Drop(told, id), Announce(Drop(told, id), id, c.groups), a, b, begun);
    OthersKeep(Announce(Drop(told, id), id, c.groups), DoDisconnect(s, id), a, b, begun);
  }

  lemma RegisterKeeps(s: State, id: string, a: string, b: string, begun: set<string>)
    requires Pair(s, a, b, begun) && id in s.conns
    ensures Pair(DoRegister(s, id), a, b, begun)
  {
    var c := s.conns[id];
    var grown := s.(conns := s.conns[id := c.(groups := c.groups + {LOBBY, Inbox(id)})]);
    GrowGroupsKeeps(s, id, c.(groups := c.groups + {LOBBY, Inbox(id)}), a, b, begun);
    SendIsNotice(grown, LOBBY, GroupEvent(id, LOBBY), a, b);
    NoticesKeep(grown, DoRegister(s, id), a, b, begun);
  }

  lemma CloseKeeps(s: State, id: string, request: Option<string>, a: string, b: string, begun: set<string>)
    requires Pair(s, a, b, begun) && id in s.conns
    ensures Pair(DoClose(s, id, request), a, b, begun)
  {
    var closed := s.(conns := s.conns[id := AfterClose(s.conns[id], request)]);
    GrowGroupsKeeps(s, id, AfterClose(s.conns[id], request), a, b, begun);
    OthersKeep(closed, DoClose(s, id, request), a, b, begun);
  }

  lemma MessageKeeps(s: State, id: string, room: string, a: string, b: string, begun: set<string>)
    requires Pair(s, a, b, begun)
    ensures Pair(Do(s, SendMessage(id, room)), a, b, begun)
  {
    SendIsNotice(s, room, GroupEvent(id, room), a, b);
    NoticesKeep(s, Send(s, room, GroupEvent(id, room)), a, b, begun);
  }

  /** Coming and going, of others than the two. */
  lemma {:induction false} SessionStepKeeps(s: State, step: Step, a: string, b: string, begun: set<string>)
    requires Pair(s, a, b, begun) && Quiet(step, a, b)
    requires step.Connect? || step.Disconnect? || step.Crash? || step.RegisterGroup?
    ensures Pair(Do(s, step), a, b, begun)
  {
    match step
    case Connect(id, live) => if id in s.issued && id !in s.conns { ConnectKeeps(s, id, live, a, b, begun); }
    case Disconnect(id) => if id in s.conns { DisconnectKeeps(s, id, a, b, begun); }
    case Crash(id) => OthersKeep(s, Drop(s, id), a, b, begun);
    case RegisterGroup(id) => if id in s.conns { RegisterKeeps(s, id, a, b, begun); }
  }

  /** Chatting, which may open a chat between the two. */
  lemma {:induction false} ChatStepKeeps(s: State, step: Step, a: string, b: string, begun: set<string>)
    requires Pair(s, a, b, begun)
    requires step.SendInvite? || step.CloseChat? || step.SendMessage? || step.Receive?
    ensures Pair(Do(s, step), a, b, begun + OpenedBy(s, step, a, b))
  {
    match step
    case SendInvite(id, request, access) => if id in s.conns { InviteKeeps(s, id, request, access, a, b, begun); }
    case CloseChat(id, request) => if id in s.conns { CloseKeeps(s, id, request, a, b, begun); }
    case SendMessage(id, room) => MessageKeeps(s, id, room, a, b, begun);
    case Receive(id, e) =>
      if id in s.conns && id in s.queues && e in s.queues[id] { ReceiveKeeps(s, id, e, a, b, begun); }
  }

  lemma {:induction false} PresenceStepKeeps(s: State, step: Step, a: string, b: string, begun: set<string>)
    requires Pair(s, a, b, begun) && Quiet(step, a, b)
    requires step.IssueId? || step.SetBots? || step.Heartbeat? || step.PresenceExpires? || step.HashExpires?
    ensures Pair(Do(s, step), a, b, begun)
  {
    if !step.SetBots? {
      OthersKeep(s, Do(s, step), a, b, begun);
    }
  }

  lemma {:induction false} StepKeeps(s: State, step: Step, a: string, b: string, begun: set<string>)
    requires Pair(s, a, b, begun) && Quiet(step, a, b)
    ensures Pair(Do(s, step), a, b, begun + OpenedBy(s, step, a, b))
  {
    if step.SendInvite? || step.CloseChat? || step.SendMessage? || step.Receive? {
      ChatStepKeeps(s, step, a, b, begun);
    } else {
      assert begun + OpenedBy(s, step, a, b) == begun;
      if step.Connect? || step.Disconnect? || step.Crash? || step.RegisterGroup? {
        SessionStepKeeps(s, step, a, b, begun);
      } else {
        PresenceStepKeeps(s, step, a, b, begun);
      }
    }
  }

  /**
   Through any run in which both stay connected, whoever opened or accepted a chat with the other since the run
   began has it in a group that the other is in, or that an invite still on its way carries to the other.
   */
  lemma {:induction false} PairsStayReachable(s: State, steps: seq<Step>, a: string, b: string, begun: set<string>)
    requires Pair(s, a, b, begun)
    requires forall step :: step in steps ==> Quiet(step, a, b)
    ensures Pair(After(s, steps), a, b, begun + OpenedDuring(s, steps, a, b))
  {
    if steps == [] {
      assert begun + {} == begun;
    } else {
      var before, last := steps[..|steps| - 1], steps[|steps| - 1];
      assert last in steps;
      PairsStayReachable(s, before, a, b, begun);
      StepKeeps(After(s, before), last, a, b, begun + OpenedDuring(s, before, a, b));
      assert (begun + OpenedDuring(s, before, a, b)) + OpenedBy(After(s, before), last, a, b)
          == begun + OpenedDuring(s, steps, a, b);
    }
  }

  /** A message to a chat the partner has joined is put in its queue. */
  lemma MessageArrives(s: State, a: string, b: string, g: string)
    requires a in s.conns && b in s.conns && b in s.queues && g in s.conns[a].groups && g in s.conns[b].groups
    ensures var sent := Do(s, SendMessage(a, g)); b in sent.queues && GroupEvent(a, g) in sent.queues[b]
  {
  }

  /**
   Once the partner has handled the invite to the chat, if one was still on its way, every message sent to the
   chat is put in its queue, and the sender is never turned away from its own chat.
   */
  lemma {:induction false} MessageReachesPartner(s: State, steps: seq<Step>, a: string, b: string, begun: set<string>)
    requires Pair(s, a, b, begun)
    requires forall step :: step in steps ==> Quiet(step, a, b)
    requires a in begun + OpenedDuring(s, steps, a, b)
    ensures var s' := After(s, steps);
      && a in s'.conns && b in s'.queues
      && (b in s'.conns[a].chats && InviteEvent(a, s'.conns[a].chats[b]) !in s'.queues[b] ==>
            var g := s'.conns[a].chats[b];
            var sent := Do(s', SendMessage(a, g));
            b in sent.queues && GroupEvent(a, g) in sent.queues[b])
  {
    PairsStayReachable(s, steps, a, b, begun);
    var s' := After(s, steps);
    assert Settled(s', a) && Settled(s', b) && Linked(s', a, b);
    if b in s'.conns[a].chats && InviteEvent(a, s'.conns[a].chats[b]) !in s'.queues[b] {
      MessageArrives(s', a, b, s'.conns[a].chats[b]);
    }
  }

  // ---------- From the empty system ----------

  /** A connection goes by its own id and is in the group of every chat of its ledger. */
  ghost predicate ConnGrounded(id: string, c: Conn) {
    c.id == id && forall p :: p in c.chats ==> c.chats[p] in c.groups
  }

  ghost predicate Grounded(s: State) {
    s.queues.Keys == s.conns.Keys && forall id :: id in s.conns ==> ConnGrounded(id, s.conns[id])
  }

  /** Sending changes no connection. */
  lemma SameConnsGrounded(s: State, s': State)
    requires Grounded(s) && s'.conns == s.conns && s'.queues.Keys == s.queues.Keys
    ensures Grounded(s')
  {
  }

  lemma OneConnGrounded(s: State, s': State, id: string, c: Conn)
    requires Grounded(s) && id in s.conns && ConnGrounded(id, c)
    requires s'.conns == s.conns[id := c] && s'.queues.Keys == s.queues.Keys
    ensures Grounded(s')
  {
  }

  lemma TakeGrounded(s: State, id: string, partner: string, group: string)
    requires Grounded(s) && id in s.conns
    ensures Grounded(DoTake(s, id, partner, group))
  {
    OneConnGrounded(s, DoTake(s, id, partner, group), id, Take(s.conns[id], partner, group));
  }

  lemma PerformGrounded(s: State, id: string, outcome: Outcome)
    requires Grounded(s) && id in s.conns
    ensures Grounded(Perform(s, id, outcome))
  {
    match outcome
    case OFFLINE(target, group) => SameConnsGrounded(s, Perform(s, id, outcome));
    case OPENED(target, group, _) =>
      TakeGrounded(s, id, target, group);
      SameConnsGrounded(DoTake(s, id, target, group), Perform(s, id, outcome));
    case _ =>
  }

  lemma InviteGrounded(s: State, id: string, request: Option<string>, access: Access)
    requires Grounded(s) && id in s.conns
    ensures Grounded(DoInvite(s, id, request, access))
  {
    PerformGrounded(s, id, OutcomeOf(s, id, request, access));
  }

  lemma DequeueGrounded(s: State, id: string, e: Event)
    requires Grounded(s) && id in s.conns && id in s.queues
    ensures Grounded(Dequeue(s, id, e))
  {
    SameConnsGrounded(s, Dequeue(s, id, e));
  }

  lemma ReceiveGrounded(s: State, id: string, e: Event)
    requires Grounded(s) && id in s.conns && id in s.queues
    ensures Grounded(DoReceive(s, id, e))
  {
    DequeueGrounded(s, id, e);
    match e
    case InviteEvent(from, group) => TakeGrounded(Dequeue(s, id, e), id, from, group);
    case OfflineEvent(user, _) =>
      OneConnGrounded(Dequeue(s, id, e), DoReceive(s, id, e), id, s.conns[id].(chats := s.conns[id].chats - {user}));
    case GroupEvent(_, _) =>
  }

  lemma ConnectGrounded(s: State, id: string, live: set<string>)
    requires Grounded(s) && id !in s.conns
    ensures Grounded(DoConnect(s, id, live))
  {
    JoinedGrounded(s, id, live);
    SameConnsGrounded(Joined(s, id, live), DoConnect(s, id, live));
  }

  lemma JoinedGrounded(s: State, id: string, live: set<string>)
    requires Grounded(s) && id !in s.conns
    ensures Grounded(Joined(s, id, live))
  {
    assert ConnGrounded(id, Connected(id, HashOf(s, id), live));
  }

  lemma DropGrounded(s: State, id: string)
    requires Grounded(s)
    ensures Grounded(Drop(s, id))
  {
  }

  lemma DisconnectGrounded(s: State, id: string)
    requires Grounded(s) && id in s.conns
    ensures Grounded(DoDisconnect(s, id))
  {
    var told := NotifyPartners(s, id, s.conns[id].chats);
    SameConnsGrounded(s, told);
    DropGrounded(told, id);
    SameConnsGrounded(Drop(told, id), DoDisconnect(s, id));
  }

  lemma RegisterGrounded(s: State, id: string)
    requires Grounded(s) && id in s.conns
    ensures Grounded(DoRegister(s, id))
  {
    var c := s.conns[id].(groups := s.conns[id].groups + {LOBBY, Inbox(id)});
    OneConnGrounded(s, DoRegister(s, id), id, c);
  }

  lemma CloseGrounded(s: State, id: string, request: Option<string>)
    requires Grounded(s) && id in s.conns
    ensures Grounded(DoClose(s, id, request))
  {
    OneConnGrounded(s, DoClose(s, id, request), id, AfterClose(s.conns[id], request));
  }

  lemma {:induction false} ChatGrounded(s: State, step: Step)
    requires Grounded(s) && (step.SendInvite? || step.CloseChat? || step.Receive?)
    ensures Grounded(Do(s, step))
  {
    match step
    case SendInvite(id, request, access) => if id in s.conns { InviteGrounded(s, id, request, access); }
    case CloseChat(id, request) => if id in s.conns { CloseGrounded(s, id, request); }
    case Receive(id, e) => if id in s.conns && id in s.queues && e in s.queues[id] { ReceiveGrounded(s, id, e); }
  }

  lemma {:induction false} ComingGrounded(s: State, step: Step)
    requires Grounded(s) && (step.Connect? || step.RegisterGroup?)
    ensures Grounded(Do(s, step))
  {
    if step.Connect? && step.id in s.issued && step.id !in s.conns {
      ConnectGrounded(s, step.id, step.live);
    } else if step.RegisterGroup? && step.id in s.conns {
      RegisterGrounded(s, step.id);
    }
  }

  lemma {:induction false} LeavingGrounded(s: State, step: Step)
    requires Grounded(s) && (step.Disconnect? || step.Crash?)
    ensures Grounded(Do(s, step))
  {
    if step.Crash? {
      DropGrounded(s, step.id);
    } else if step.id in s.conns {
      DisconnectGrounded(s, step.id);
    }
  }

  lemma {:induction false} StepGrounded(s: State, step: Step)
    requires Grounded(s)
    ensures Grounded(Do(s, step))
  {
    if step.SendInvite? || step.CloseChat? || step.Receive? {
      ChatGrounded(s, step);
    } else if step.Connect? || step.RegisterGroup? {
      ComingGrounded(s, step);
    } else if step.Disconnect? || step.Crash? {
      LeavingGrounded(s, step);
    } else {
      SameConnsGrounded(s, Do(s, step));
    }
  }

  /** In every reachable state each connection is in the group of every chat of its ledger. */
  lemma {:induction false} GroundedHolds(steps: seq<Step>)
    ensures Grounded(After(Init(), steps))
  {
    if steps != [] {
      GroundedHolds(steps[..|steps| - 1]);
      StepGrounded(After(Init(), steps[..|steps| - 1]), steps[|steps| - 1]);
    }
  }

  /** Connected, with its inbox registered, and no bot. */
  predicate Registered(s: State, id: string) {
    IsMember(s, id, Inbox(id)) && id !in s.bots
  }

  /** No invite from one to the other is on its way. */
  ghost predicate NothingBetween(s: State, a: string, b: string) {
    forall id, g :: id in s.queues ==>
      (id == b ==> InviteEvent(a, g) !in s.queues[id]) && (id == a ==> InviteEvent(b, g) !in s.queues[id])
  }

  /** A chat that the ledger holds is in a group the other is in, or in an invite on its way to the other. */
  ghost predicate ChatReaches(s: State, a: string, b: string) {
    && a in s.conns && b in s.conns && b in s.queues
    && (b in s.conns[a].chats ==>
          s.conns[a].chats[b] in s.conns[b].groups || InviteEvent(a, s.conns[a].chats[b]) in s.queues[b])
  }

  /**
   In every reachable state: from the moment two registered users have no invite between them on its way, and
   as long as both stay connected, a chat that one of them opens or accepts with the other reaches the other.
   */
  lemma {:induction false} OpenedChatsReach(before: seq<Step>, steps: seq<Step>, a: string, b: string)
    requires a != b && Registered(After(Init(), before), a) && Registered(After(Init(), before), b)
    requires NothingBetween(After(Init(), before), a, b)
    requires forall step :: step in steps ==> Quiet(step, a, b)
    requires a in OpenedDuring(After(Init(), before), steps, a, b)
    ensures ChatReaches(After(After(Init(), before), steps), a, b)
  {
    GroundedHolds(before);
    OpenedChatsReachFrom(After(Init(), before), steps, a, b);
  }

  lemma {:induction false} OpenedChatsReachFrom(s: State, steps: seq<Step>, a: string, b: string)
    requires Grounded(s) && a != b && Registered(s, a) && Registered(s, b) && NothingBetween(s, a, b)
    requires forall step :: step in steps ==> Quiet(step, a, b)
    requires a in OpenedDuring(s, steps, a, b)
    ensures ChatReaches(After(s, steps), a, b)
  {
    RegisteredIsSettled(s, a);
    RegisteredIsSettled(s, b);
    SettledArePaired(s, a, b);
    PairsStayReachable(s, steps, a, b, Strangers(s, a, b));
    PairLinks(After(s, steps), a, b, Strangers(s, a, b) + OpenedDuring(s, steps, a, b));
  }

  lemma RegisteredIsSettled(s: State, id: string)
    requires Grounded(s) && Registered(s, id)
    ensures Settled(s, id)
  {
    assert ConnGrounded(id, s.conns[id]);
  }

  lemma PairLinks(s: State, a: string, b: string, begun: set<string>)
    requires Pair(s, a, b, begun) && a in begun
    ensures ChatReaches(s, a, b)
  {
  }
}
