/**
 Isolation: in every reachable state of the chat system, a private group is held, joined, offered and used
 only by the two identities it is named after.
 */
module ChatIsolation {
  import opened Options
  import opened ChatIds
  import opened PrivateChats
  import opened ChatSystem

  /** The group is the private chat of `id` with some other issued identity. */
  ghost predicate IsChatOf(issued: set<string>, group: string, id: string) {
    exists p :: p in issued && p != id && GroupOf(group, id, p)
  }

  ghost predicate ChatsOk(issued: set<string>, id: string, chats: map<string, string>) {
    forall p :: p in chats ==> p in issued && p != id && GroupOf(chats[p], id, p)
  }

  ghost predicate ConnOk(issued: set<string>, id: string, c: Conn) {
    && id in issued && c.id == id
    && ChatsOk(issued, id, c.chats)
    && forall g :: g in c.groups ==> g == LOBBY || g == Inbox(id) || IsChatOf(issued, g, id)
  }

  /**
   A notice to `id` that its partner is offline names their chat. A notice to a user whose own invite failed
   names the group it asked for, whether or not the partner exists.
   */
  ghost predicate OfflineOk(issued: set<string>, id: string, user: string, chat: string) {
    chat == PrivateGroup(id, user) || (user in issued && user != id && GroupOf(chat, id, user))
  }

  /** An event that may be waiting for `id`. */
  ghost predicate EventOk(issued: set<string>, id: string, e: Event) {
    match e
    case InviteEvent(from, group) => from in issued && from != id && GroupOf(group, id, from)
    case OfflineEvent(user, chat) => OfflineOk(issued, id, user, chat)
    case GroupEvent(sender, room) =>
      IsPrivate(room) ==> exists p :: p in issued && GroupOf(room, id, p) && (sender == id || sender == p)
  }

  ghost predicate IdsOk(s: State) {
    && (forall id :: id in s.issued ==> Issued(id))
    && s.online <= s.issued && s.bots <= s.issued && s.hashes.Keys <= s.issued
    && s.queues.Keys == s.conns.Keys
  }

  ghost predicate ConnsOk(issued: set<string>, conns: map<string, Conn>) {
    forall id :: id in conns ==> ConnOk(issued, id, conns[id])
  }

  ghost predicate HashesOk(issued: set<string>, hashes: map<string, map<string, string>>) {
    forall id :: id in hashes ==> ChatsOk(issued, id, hashes[id])
  }

  ghost predicate QueueOk(issued: set<string>, id: string, queue: multiset<Event>) {
    forall e :: e in queue ==> EventOk(issued, id, e)
  }

  ghost predicate QueuesOk(issued: set<string>, queues: map<string, multiset<Event>>) {
    forall id :: id in queues ==> QueueOk(issued, id, queues[id])
  }

  ghost predicate Inv(s: State) {
    IdsOk(s) && ConnsOk(s.issued, s.conns) && HashesOk(s.issued, s.hashes) && QueuesOk(s.issued, s.queues)
  }

  lemma PairIsFixed(g: string, i: string, p: string, j: string, q: string)
    requires Issued(i) && Issued(p) && Issued(j) && Issued(q)
    requires GroupOf(g, i, p) && GroupOf(g, j, q)
    ensures (i == j && p == q) || (i == q && p == j)
  {
    var x, y := if g == PrivateGroup(i, p) then (i, p) else (p, i), if g == PrivateGroup(j, q) then (j, q) else (q, j);
    NameFixesPair(x.0, x.1, y.0, y.1);
  }

  /** Between members, an event on a private group stays inside its pair. */
  lemma MemberEventsOk(s: State, sender: string, room: string, id: string)
    requires Inv(s) && sender in s.issued && IsMember(s, id, room)
    requires IsPrivate(room) ==> IsChatOf(s.issued, room, sender)
    ensures EventOk(s.issued, id, GroupEvent(sender, room))
  {
    if IsPrivate(room) {
      InboxesAreApart(id, id);
      var p :| p in s.issued && p != id && GroupOf(room, id, p);
      var q :| q in s.issued && q != sender && GroupOf(room, sender, q);
      PairIsFixed(room, id, p, sender, q);
    }
  }

  lemma SendKeeps(s: State, group: string, e: Event)
    requires Inv(s)
    requires forall i :: IsMember(s, i, group) ==> EventOk(s.issued, i, e)
    ensures Inv(Send(s, group, e))
  {
  }

  lemma SendToRoomKeeps(s: State, sender: string, room: string)
    requires Inv(s) && sender in s.issued && (IsPrivate(room) ==> IsChatOf(s.issued, room, sender))
    ensures Inv(Send(s, room, GroupEvent(sender, room)))
  {
    forall i | IsMember(s, i, room) ensures EventOk(s.issued, i, GroupEvent(sender, room)) {
      MemberEventsOk(s, sender, room, i);
    }
    SendKeeps(s, room, GroupEvent(sender, room));
  }

  lemma AnnounceKeeps(s: State, sender: string, groups: set<string>)
    requires Inv(s) && sender in s.issued
    requires forall g :: g in groups && IsPrivate(g) ==> IsChatOf(s.issued, g, sender)
    ensures Inv(Announce(s, sender, groups))
  {
    forall i, g | g in groups && IsMember(s, i, g) ensures EventOk(s.issued, i, GroupEvent(sender, g)) {
      MemberEventsOk(s, sender, g, i);
    }
  }

  lemma NotifyKeeps(s: State, sender: string, chats: map<string, string>)
    requires Inv(s) && sender in s.issued && ChatsOk(s.issued, sender, chats)
    ensures Inv(NotifyPartners(s, sender, chats))
  {
    forall i | i in s.queues ensures QueueOk(s.issued, i, NotifyPartners(s, sender, chats).queues[i]) {
      NoticesOk(s, sender, chats, i);
    }
  }

  /** A leaving user's notice reaches the partner it is for, and names their chat. */
  lemma NoticesOk(s: State, sender: string, chats: map<string, string>, i: string)
    requires Inv(s) && sender in s.issued && ChatsOk(s.issued, sender, chats)
    ensures QueueOk(s.issued, i, multiset(Notices(s, i, sender, chats)))
  {
    forall p | p in chats && IsMember(s, i, Inbox(p)) ensures OfflineOk(s.issued, i, sender, chats[p]) {
      InboxHasOneMember(s, i, p);
    }
  }

  /** A connection's private groups are chats of its own. */
  lemma PrivateGroupsAreChats(s: State, id: string)
    requires Inv(s) && id in s.conns
    ensures forall g :: g in s.conns[id].groups && IsPrivate(g) ==> IsChatOf(s.issued, g, id)
  {
    InboxesAreApart(id, id);
  }

  lemma SetConnKeeps(s: State, id: string, c: Conn)
    requires Inv(s) && id in s.conns && ConnOk(s.issued, id, c)
    ensures Inv(s.(conns := s.conns[id := c]))
  {
  }

  lemma SetHashKeeps(s: State, id: string, hash: map<string, string>)
    requires Inv(s) && id in s.issued && ChatsOk(s.issued, id, hash)
    ensures Inv(s.(hashes := s.hashes[id := hash]))
  {
  }

  lemma TakeIsOk(issued: set<string>, id: string, c: Conn, partner: string, group: string)
    requires ConnOk(issued, id, c) && partner in issued && partner != id && GroupOf(group, id, partner)
    ensures ConnOk(issued, id, Take(c, partner, group))
  {
    assert IsChatOf(issued, group, id);
  }

  lemma TakeKeeps(s: State, id: string, partner: string, group: string)
    requires Inv(s) && id in s.conns && partner in s.issued && partner != id && GroupOf(group, id, partner)
    ensures Inv(DoTake(s, id, partner, group))
  {
    TakeIsOk(s.issued, id, s.conns[id], partner, group);
    SetConnKeeps(s, id, Take(s.conns[id], partner, group));
    SetHashKeeps(s.(conns := s.conns[id := Take(s.conns[id], partner, group)]), id, HashOf(s, id)[partner := group]);
  }

  lemma ConnectedOk(issued: set<string>, id: string, hash: map<string, string>, live: set<string>)
    requires id in issued && ChatsOk(issued, id, hash)
    ensures ChatsOk(issued, id, Labelled(hash, live))
    ensures ConnOk(issued, id, Connected(id, hash, live))
    ensures forall g :: g in Connected(id, hash, live).groups ==> IsChatOf(issued, g, id)
  {
    var c := Connected(id, hash, live);
    forall g | g in c.groups ensures IsChatOf(issued, g, id) {
      var p :| p in c.chats && c.chats[p] == g;
      assert p in issued && p != id && GroupOf(g, id, p);
    }
  }

  lemma JoinedKeeps(s: State, id: string, live: set<string>)
    requires Inv(s) && id in s.issued && id !in s.conns
    ensures Inv(Joined(s, id, live))
  {
    ConnectedOk(s.issued, id, HashOf(s, id), live);
    var s1 := s.(conns := s.conns[id := Connected(id, HashOf(s, id), live)], queues := s.queues[id := multiset{}]);
    assert Inv(s1);
    SetHashKeeps(s1, id, Labelled(HashOf(s, id), live));
  }

  lemma ConnectKeeps(s: State, id: string, live: set<string>)
    requires Inv(s) && id in s.issued && id !in s.conns
    ensures Inv(DoConnect(s, id, live))
  {
    ConnectedOk(s.issued, id, HashOf(s, id), live);
    JoinedKeeps(s, id, live);
    AnnounceKeeps(Joined(s, id, live), id, Connected(id, HashOf(s, id), live).groups);
  }

  lemma DropKeeps(s: State, id: string)
    requires Inv(s)
    ensures Inv(Drop(s, id))
  {
  }

  lemma DisconnectKeeps(s: State, id: string)
    requires Inv(s) && id in s.conns
    ensures Inv(DoDisconnect(s, id))
  {
    var c := s.conns[id];
    PrivateGroupsAreChats(s, id);
    assert ConnOk(s.issued, id, c);
    NotifyKeeps(s, id, c.chats);
    DropKeeps(NotifyPartners(s, id, c.chats), id);
    AnnounceKeeps(Drop(NotifyPartners(s, id, c.chats), id), id, c.groups);
  }

  lemma RegisterKeeps(s: State, id: string)
    requires Inv(s) && id in s.conns
    ensures Inv(DoRegister(s, id))
  {
    var c := s.conns[id].(groups := s.conns[id].groups + {LOBBY, Inbox(id)});
    SetConnKeeps(s, id, c);
    InboxesAreApart(id, id);
    SendToRoomKeeps(s.(conns := s.conns[id := c]), id, LOBBY);
  }

  /** Only its owner is ever a member of an inbox. */
  lemma InboxHasOneMember(s: State, id: string, user: string)
    requires Inv(s) && IsMember(s, id, Inbox(user))
    ensures id == user
  {
    InboxesAreApart(id, user);
    InboxesAreApart(user, user);
    if IsChatOf(s.issued, Inbox(user), id) {
      var p :| p in s.issued && p != id && GroupOf(Inbox(user), id, p);
      PrivateGroupIsPlain(id, p);
      PrivateGroupIsPlain(p, id);
    }
  }

  lemma OfferKeeps(s: State, id: string, target: string, group: string)
    requires Inv(s) && id in s.issued && target in s.issued && target != id && GroupOf(group, id, target)
    ensures Inv(OfferChat(s, id, target, group))
  {
    forall i | IsMember(s, i, Inbox(target)) ensures EventOk(s.issued, i, InviteEvent(id, group)) {
      InboxHasOneMember(s, i, target);
    }
    SendKeeps(s, Inbox(target), InviteEvent(id, group));
    assert IsChatOf(s.issued, group, id);
    SendToRoomKeeps(Send(s, Inbox(target), InviteEvent(id, group)), id, group);
  }

  /** An invite opens a chat with another issued id, in a group of the two; or it fails, and names their group. */
  ghost predicate OutcomeOk(issued: set<string>, id: string, outcome: Outcome) {
    match outcome
    case OPENED(target, group, _) => target in issued && target != id && GroupOf(group, id, target)
    case OFFLINE(target, group) => OfflineOk(issued, id, target, group)
    case _ => true
  }

  lemma OutcomeIsOk(s: State, id: string, request: Option<string>, access: Access)
    requires Inv(s) && id in s.conns
    ensures OutcomeOk(s.issued, id, OutcomeOf(s, id, request, access))
  {
    assert ConnOk(s.issued, id, s.conns[id]);
  }

  lemma FailedInviteKeeps(s: State, id: string, target: string, group: string)
    requires Inv(s) && OfflineOk(s.issued, id, target, group)
    ensures Inv(Send(s, Inbox(id), OfflineEvent(target, group)))
  {
    forall i | IsMember(s, i, Inbox(id)) ensures EventOk(s.issued, i, OfflineEvent(target, group)) {
      InboxHasOneMember(s, i, id);
    }
    SendKeeps(s, Inbox(id), OfflineEvent(target, group));
  }

  lemma PerformKeeps(s: State, id: string, outcome: Outcome)
    requires Inv(s) && id in s.conns && OutcomeOk(s.issued, id, outcome)
    ensures Inv(Perform(s, id, outcome))
  {
    match outcome
    case OFFLINE(target, group) => FailedInviteKeeps(s, id, target, group);
    case OPENED(target, group, notify) =>
      TakeKeeps(s, id, target, group);
      MemberIsIssued(s, id);
      OfferKeeps(DoTake(s, id, target, group), id, target, group);
    case _ =>
  }

  lemma MemberIsIssued(s: State, id: string)
    requires Inv(s) && id in s.conns
    ensures id in s.issued
  {
    assert ConnOk(s.issued, id, s.conns[id]);
  }

  lemma InviteKeeps(s: State, id: string, request: Option<string>, access: Access)
    requires Inv(s) && id in s.conns
    ensures Inv(DoInvite(s, id, request, access))
  {
    OutcomeIsOk(s, id, request, access);
    PerformKeeps(s, id, OutcomeOf(s, id, request, access));
  }

  lemma DequeueKeeps(s: State, id: string, e: Event)
    requires Inv(s) && id in s.conns
    ensures Inv(Dequeue(s, id, e))
  {
  }

  lemma ReceiveKeeps(s: State, id: string, e: Event)
    requires Inv(s) && id in s.conns && e in s.queues[id]
    ensures Inv(DoReceive(s, id, e))
  {
    DequeueKeeps(s, id, e);
    assert EventOk(s.issued, id, e);
    match e
    case InviteEvent(from, group) => TakeKeeps(Dequeue(s, id, e), id, from, group);
    case OfflineEvent(user, _) =>
      assert ConnOk(s.issued, id, s.conns[id]);
      SetConnKeeps(Dequeue(s, id, e), id, s.conns[id].(chats := s.conns[id].chats - {user}));
    case GroupEvent(_, _) =>
  }

  lemma CloseKeeps(s: State, id: string, request: Option<string>)
    requires Inv(s) && id in s.conns
    ensures Inv(DoClose(s, id, request))
  {
    var c := s.conns[id];
    assert ConnOk(s.issued, id, c);
    if CloseAccepted(c, request) {
      SetConnKeeps(s, id, AfterClose(c, request));
      SetHashKeeps(s.(conns := s.conns[id := AfterClose(c, request)]), id, HashOf(s, id) - {request.value});
    }
  }

  lemma IssueKeeps(s: State, n: nat, guest: bool)
    requires Inv(s)
    ensures Inv(Do(s, IssueId(n, guest)))
  {
    var s' := Do(s, IssueId(n, guest));
    forall id | id in s.conns ensures ConnOk(s'.issued, id, s.conns[id]) {
      ConnStaysOk(s.issued, s'.issued, id, s.conns[id]);
    }
    forall id, e | id in s.queues && e in s.queues[id] ensures EventOk(s'.issued, id, e) {
      EventStaysOk(s.issued, s'.issued, id, e);
    }
  }

  lemma ConnStaysOk(issued: set<string>, issued': set<string>, id: string, c: Conn)
    requires issued <= issued' && ConnOk(issued, id, c)
    ensures ConnOk(issued', id, c)
  {
    forall g | g in c.groups && IsChatOf(issued, g, id) ensures IsChatOf(issued', g, id) {
      var p :| p in issued && p != id && GroupOf(g, id, p);
      assert p in issued';
    }
  }

  lemma EventStaysOk(issued: set<string>, issued': set<string>, id: string, e: Event)
    requires issued <= issued' && EventOk(issued, id, e)
    ensures EventOk(issued', id, e)
  {
    if e.GroupEvent? && IsPrivate(e.room) {
      var p :| p in issued && GroupOf(e.room, id, p) && (e.sender == id || e.sender == p);
      assert p in issued';
    }
  }

  lemma MessageKeeps(s: State, id: string, room: string)
    requires Inv(s)
    ensures Inv(Do(s, SendMessage(id, room)))
  {
    if id in s.conns && (IsPrivate(room) ==> IsMember(s, id, room)) {
      PrivateGroupsAreChats(s, id);
      SendToRoomKeeps(s, id, room);
    }
  }

  /** Presence markers, bots and expiring hashes hold no chat of their own. */
  lemma PresenceKeeps(s: State, step: Step)
    requires Inv(s)
    requires step.SetBots? || step.Heartbeat? || step.PresenceExpires? || step.HashExpires?
    ensures Inv(Do(s, step))
  {
  }

  /** Coming and going. */
  lemma {:induction false} SessionStepKeeps(s: State, step: Step)
    requires Inv(s)
    requires step.IssueId? || step.Connect? || step.Disconnect? || step.Crash? || step.RegisterGroup?
    ensures Inv(Do(s, step))
  {
    match step
    case IssueId(n, guest) => IssueKeeps(s, n, guest);
    case Connect(id, live) => if id in s.issued && id !in s.conns { ConnectKeeps(s, id, live); }
    case Disconnect(id) => if id in s.conns { DisconnectKeeps(s, id); }
    case Crash(id) => DropKeeps(s, id);
    case RegisterGroup(id) => if id in s.conns { RegisterKeeps(s, id); }
  }

  lemma SendInviteKeeps(s: State, id: string, request: Option<string>, access: Access)
    requires Inv(s)
    ensures Inv(Do(s, SendInvite(id, request, access)))
  {
    if id in s.conns {
      InviteKeeps(s, id, request, access);
      assert Do(s, SendInvite(id, request, access)) == DoInvite(s, id, request, access);
    }
  }

  lemma CloseChatKeeps(s: State, id: string, request: Option<string>)
    requires Inv(s)
    ensures Inv(Do(s, CloseChat(id, request)))
  {
    if id in s.conns {
      CloseKeeps(s, id, request);
      assert Do(s, CloseChat(id, request)) == DoClose(s, id, request);
    }
  }

  lemma ReceiveStepKeeps(s: State, id: string, e: Event)
    requires Inv(s)
    ensures Inv(Do(s, Receive(id, e)))
  {
    if id in s.conns && id in s.queues && e in s.queues[id] {
      ReceiveKeeps(s, id, e);
      assert Do(s, Receive(id, e)) == DoReceive(s, id, e);
    }
  }

  /** Chatting. */
  lemma {:induction false} ChatStepKeeps(s: State, step: Step)
    requires Inv(s)
    requires step.SendInvite? || step.CloseChat? || step.SendMessage? || step.Receive?
    ensures Inv(Do(s, step))
  {
    match step
    case SendInvite(id, request, access) => SendInviteKeeps(s, id, request, access);
    case CloseChat(id, request) => CloseChatKeeps(s, id, request);
    case SendMessage(id, room) => MessageKeeps(s, id, room);
    case Receive(id, e) => ReceiveStepKeeps(s, id, e);
  }

  lemma {:induction false} StepKeeps(s: State, step: Step)
    requires Inv(s)
    ensures Inv(Do(s, step))
  {
    if step.SetBots? || step.Heartbeat? || step.PresenceExpires? || step.HashExpires? {
      PresenceKeeps(s, step);
    } else if step.SendInvite? || step.CloseChat? || step.SendMessage? || step.Receive? {
      ChatStepKeeps(s, step);
    } else {
      SessionStepKeeps(s, step);
    }
  }

  lemma {:induction false} InvHolds(steps: seq<Step>)
    ensures Inv(After(Init(), steps))
  {
    if steps != [] {
      InvHolds(steps[..|steps| - 1]);
      StepKeeps(After(Init(), steps[..|steps| - 1]), steps[|steps| - 1]);
    }
  }

  /** Whoever has the group of `a` and `b` as a chat with `p` is one of the two, and `p` the other. */
  lemma ChatIsThePair(s: State, a: string, b: string, id: string, p: string)
    requires Inv(s) && Issued(a) && Issued(b) && id in s.issued && p in s.issued && GroupOf(PrivateGroup(a, b), id, p)
    ensures {id, p} == {a, b}
  {
    PairIsFixed(PrivateGroup(a, b), id, p, a, b);
  }

  /** A group is recorded, in a ledger or a hash, only by its pair, each for the other. */
  lemma RecordsStayInPair(s: State, a: string, b: string, id: string, chats: map<string, string>)
    requires Inv(s) && Issued(a) && Issued(b) && id in s.issued && ChatsOk(s.issued, id, chats)
    ensures forall p :: p in chats && chats[p] == PrivateGroup(a, b) ==> {id, p} == {a, b}
  {
    forall p | p in chats && chats[p] == PrivateGroup(a, b) ensures {id, p} == {a, b} {
      ChatIsThePair(s, a, b, id, p);
    }
  }

  lemma GroupIsPrivate(a: string, b: string)
    requires Issued(a) && Issued(b)
    ensures IsPrivate(PrivateGroup(a, b))
  {
    PrivateGroupIsPlain(a, b);
  }

  /** A member of a private group has a partner it is named after. */
  lemma PartnerIn(s: State, id: string, group: string) returns (p: string)
    requires Inv(s) && IsMember(s, id, group) && IsPrivate(group)
    ensures id in s.issued && p in s.issued && p != id && GroupOf(group, id, p)
  {
    MemberIsIssued(s, id);
    PrivateGroupsAreChats(s, id);
    assert IsChatOf(s.issued, group, id);
    p :| p in s.issued && p != id && GroupOf(group, id, p);
  }

  lemma MembersStayInPair(s: State, a: string, b: string, id: string)
    requires Inv(s) && Issued(a) && Issued(b) && IsMember(s, id, PrivateGroup(a, b))
    ensures id in {a, b}
  {
    GroupIsPrivate(a, b);
    var p := PartnerIn(s, id, PrivateGroup(a, b));
    ChatIsThePair(s, a, b, id, p);
    assert id in {id, p};
  }

  lemma EventsStayInPair(s: State, a: string, b: string, id: string, e: Event)
    requires Inv(s) && Issued(a) && Issued(b) && id in s.queues && e in s.queues[id]
    ensures e.InviteEvent? && e.group == PrivateGroup(a, b) ==> {id, e.from} == {a, b}
    ensures e.GroupEvent? && e.room == PrivateGroup(a, b) ==> {id, e.sender} <= {a, b}
    ensures e.OfflineEvent? && e.chat == PrivateGroup(a, b) ==> NoticeInPair(id, e.user, a, b)
  {
    GroupIsPrivate(a, b);
    assert EventOk(s.issued, id, e);
    if e.InviteEvent? && e.group == PrivateGroup(a, b) {
      ChatIsThePair(s, a, b, id, e.from);
    } else if e.GroupEvent? && e.room == PrivateGroup(a, b) {
      var p :| p in s.issued && GroupOf(e.room, id, p) && (e.sender == id || e.sender == p);
      ChatIsThePair(s, a, b, id, p);
      assert id in {id, p} && p in {id, p};
    } else if e.OfflineEvent? && e.chat == PrivateGroup(a, b) {
      NoticeStaysInPair(s, a, b, id, e.user);
    }
  }

  /** The notice is for one of the pair, and about the other unless it is about nobody. */
  ghost predicate NoticeInPair(id: string, user: string, a: string, b: string) {
    id in {a, b} && (Issued(user) ==> {id, user} == {a, b})
  }

  lemma NoticeStaysInPair(s: State, a: string, b: string, id: string, user: string)
    requires Inv(s) && Issued(a) && Issued(b) && id in s.issued && OfflineOk(s.issued, id, user, PrivateGroup(a, b))
    ensures NoticeInPair(id, user, a, b)
  {
    if PrivateGroup(a, b) == PrivateGroup(id, user) {
      NameFixesFirst(id, user, a, b);
      if Issued(user) {
        NameFixesPair(id, user, a, b);
      }
    } else {
      ChatIsThePair(s, a, b, id, user);
      assert id in {id, user};
    }
  }

  /** Everything that names the private group is within its pair. */
  ghost predicate StaysInPair(s: State, g: string, a: string, b: string) {
    && (forall id, p :: id in s.conns && p in s.conns[id].chats && s.conns[id].chats[p] == g ==> {id, p} == {a, b})
    && (forall id, p :: id in s.hashes && p in s.hashes[id] && s.hashes[id][p] == g ==> {id, p} == {a, b})
    && (forall id :: IsMember(s, id, g) ==> id in {a, b})
    && (forall id, from :: id in s.queues && InviteEvent(from, g) in s.queues[id] ==> {id, from} == {a, b})
    && (forall id, sender :: id in s.queues && GroupEvent(sender, g) in s.queues[id] ==> {id, sender} <= {a, b})
    && (forall id, user :: id in s.queues && OfflineEvent(user, g) in s.queues[id] ==> NoticeInPair(id, user, a, b))
  }

  lemma StateStaysInPair(s: State, a: string, b: string)
    requires Inv(s) && Issued(a) && Issued(b)
    ensures StaysInPair(s, PrivateGroup(a, b), a, b)
  {
    var g := PrivateGroup(a, b);
    forall id | id in s.conns
      ensures forall p :: p in s.conns[id].chats && s.conns[id].chats[p] == g ==> {id, p} == {a, b}
    {
      assert ConnOk(s.issued, id, s.conns[id]);
      RecordsStayInPair(s, a, b, id, s.conns[id].chats);
    }
    forall id | id in s.hashes
      ensures forall p :: p in s.hashes[id] && s.hashes[id][p] == g ==> {id, p} == {a, b}
    {
      RecordsStayInPair(s, a, b, id, s.hashes[id]);
    }
    forall id | IsMember(s, id, g) ensures id in {a, b} {
      MembersStayInPair(s, a, b, id);
    }
    forall id, from | id in s.queues && InviteEvent(from, g) in s.queues[id] ensures {id, from} == {a, b} {
      EventsStayInPair(s, a, b, id, InviteEvent(from, g));
    }
    forall id, sender | id in s.queues && GroupEvent(sender, g) in s.queues[id] ensures {id, sender} <= {a, b} {
      EventsStayInPair(s, a, b, id, GroupEvent(sender, g));
    }
    forall id, user | id in s.queues && OfflineEvent(user, g) in s.queues[id] ensures NoticeInPair(id, user, a, b) {
      EventsStayInPair(s, a, b, id, OfflineEvent(user, g));
    }
  }

  /**
   In every reachable state the private group named after two issued ids appears in no ledger, hash,
   membership or invite but theirs, what is sent to it was sent by one of them and waits for one of them, and a
   notice that names it waits for one of them.
   */
  lemma {:induction false} GroupsStayInTheirPair(steps: seq<Step>, a: string, b: string)
    requires Issued(a) && Issued(b)
    ensures StaysInPair(After(Init(), steps), PrivateGroup(a, b), a, b)
  {
    InvHolds(steps);
    StateStaysInPair(After(Init(), steps), a, b);
  }
}
