/**
 A chat consumer as the server runs it: an object whose groups, ledger and closed set the handlers update in
 place, next to the Redis hashes they write through (apps/chat/consumers.py, apps/chat/services/actions/,
 apps/chat/services/private_chats.py, apps/chat/websocket/registration.py). Each handler is tied to the
 step it is in `PrivateChats` and `ChatSystem`.
 */
module ChatConsumers {
  import opened Options
  import opened ChatIds
  import opened PrivateChats
  import opened ChatSystem
  import opened ChatPayloads
  import RateLimit
  import ChatIsolation
  import Numerals

  /** An event handed to the channel layer for a group. */
  datatype Message = Message(group: string, event: Event)

  /** The stored private chats of every user, field by field. */
  class RedisHashes {
    var hashes: map<string, map<string, string>>

    constructor ()
      ensures hashes == map[]
    {
      hashes := map[];
    }

    function Get(id: string): map<string, string>
      reads this
    {
      if id in hashes then hashes[id] else map[]
    }

    method SaveUserPrivateChatGroup(id: string, target: string, group: string)
      modifies this
      ensures hashes == old(hashes)[id := old(Get(id))[target := group]]
    {
      hashes := hashes[id := Get(id)[target := group]];
    }

    method RemoveUserPrivateChatGroup(id: string, target: string)
      modifies this
      ensures hashes == old(hashes)[id := old(Get(id)) - {target}]
    {
      hashes := hashes[id := Get(id) - {target}];
    }
  }

  function SentBy(id: string, outcome: Outcome): seq<Message> {
    match outcome
    case OFFLINE(target, group) => [Message(Inbox(id), OfflineEvent(target, group))]
    case OPENED(target, group, true) =>
      [Message(Inbox(target), InviteEvent(id, group)), Message(group, GroupEvent(id, group))]
    case _ => []
  }

  function Deliver(s: State, messages: seq<Message>): State
    decreases |messages|
  {
    if messages == [] then s else Deliver(Send(s, messages[0].group, messages[0].event), messages[1..])
  }

  /** In the step system an invite is the ledger write followed by the delivery of what the handler sends. */
  lemma {:induction false} PerformDelivers(s: State, id: string, outcome: Outcome)
    requires id in s.conns
    ensures Perform(s, id, outcome) ==
      Deliver(if outcome.OPENED? then DoTake(s, id, outcome.target, outcome.group) else s, SentBy(id, outcome))
  {
    var messages := SentBy(id, outcome);
    if |messages| == 2 {
      var taken := DoTake(s, id, outcome.target, outcome.group);
      var invited := Send(taken, messages[0].group, messages[0].event);
      assert messages[1..] == [messages[1]] && messages[1..][1..] == [];
      assert Deliver(taken, messages) == Deliver(invited, [messages[1]]);
      assert Deliver(invited, [messages[1]]) == Deliver(Send(invited, messages[1].group, messages[1].event), []);
    } else if |messages| == 1 {
      assert messages[1..] == [];
    }
  }

  function Elements(order: seq<string>): set<string> {
    set g | g in order
  }

  ghost predicate Distinct(order: seq<string>) {
    forall i, j :: 0 <= i < j < |order| ==> order[i] != order[j]
  }

  /** `order` goes through the elements of the set, each once. */
  ghost predicate Lists(order: seq<string>, elements: set<string>) {
    Distinct(order) && Elements(order) == elements
  }

  function JoinedGroups(chats: map<string, string>, partners: set<string>): set<string>
    requires partners <= chats.Keys
  {
    set p | p in partners :: chats[p]
  }

  /** One presence event to the group of each listed partner, in that order. */
  function Presences(id: string, chats: map<string, string>, order: seq<string>): seq<Message>
    requires forall p :: p in order ==> p in chats
  {
    seq(|order|, i requires 0 <= i < |order| => Message(chats[order[i]], GroupEvent(id, chats[order[i]])))
  }

  lemma PresencesSnoc(id: string, chats: map<string, string>, order: seq<string>, last: string)
    requires last in chats && forall p :: p in order ==> p in chats
    ensures forall p :: p in order + [last] ==> p in chats
    ensures Presences(id, chats, order + [last]) ==
      Presences(id, chats, order) + [Message(chats[last], GroupEvent(id, chats[last]))]
  {
  }

  lemma ListsSnoc(order: seq<string>, elements: set<string>, last: string)
    requires Lists(order, elements) && last !in elements
    ensures Lists(order + [last], elements + {last})
  {
    assert forall x :: x in order + [last] <==> x in order || x == last;
  }

  /** One offline notice to the inbox of each listed partner, in that order. */
  function Farewells(id: string, chats: map<string, string>, order: seq<string>): seq<Message>
    requires forall p :: p in order ==> p in chats
  {
    seq(|order|, i requires 0 <= i < |order| => Message(Inbox(order[i]), OfflineEvent(id, chats[order[i]])))
  }

  /** One count event to each listed group, in that order. */
  function Counts(id: string, order: seq<string>): seq<Message> {
    seq(|order|, i requires 0 <= i < |order| => Message(order[i], GroupEvent(id, order[i])))
  }

  lemma AnnouncedOneMore(s: State, id: string, sender: string, group: string, groups: set<string>)
    requires group !in groups
    ensures multiset(Announced(s, id, sender, {group} + groups)) ==
      (if IsMember(s, id, group) then multiset{GroupEvent(sender, group)} else multiset{})
      + multiset(Announced(s, id, sender, groups))
  {
    var e, rest := GroupEvent(sender, group), Announced(s, id, sender, groups);
    assert e !in rest;
    assert Announced(s, id, sender, {group} + groups) == if IsMember(s, id, group) then {e} + rest else rest;
  }

  lemma AnnounceOneMoreAt(s: State, sender: string, group: string, groups: set<string>, id: string)
    requires group !in groups && id in s.queues
    ensures
      Announce(Send(s, group, GroupEvent(sender, group)), sender, groups).queues[id]
      == Announce(s, sender, {group} + groups).queues[id]
  {
    AnnouncedOneMore(s, id, sender, group, groups);
    assert Announced(Send(s, group, GroupEvent(sender, group)), id, sender, groups) == Announced(s, id, sender, groups);
  }

  lemma AnnounceOneMore(s: State, sender: string, group: string, groups: set<string>)
    requires group !in groups
    ensures Announce(Send(s, group, GroupEvent(sender, group)), sender, groups) == Announce(s, sender, {group} + groups)
  {
    var a, b := Announce(Send(s, group, GroupEvent(sender, group)), sender, groups), Announce(s, sender, {group} + groups);
    forall id | id in s.queues ensures a.queues[id] == b.queues[id] {
      AnnounceOneMoreAt(s, sender, group, groups, id);
    }
    SameQueues(a, b);
  }

  lemma SameQueues(a: State, b: State)
    requires a.(queues := map[]) == b.(queues := map[]) && a.queues.Keys == b.queues.Keys
    requires forall id :: id in a.queues ==> a.queues[id] == b.queues[id]
    ensures a == b
  {
    assert a.queues == b.queues;
  }

  /** In the step system a round of announcements is the delivery, one by one, of what the handler sends. */
  lemma {:induction false} AnnounceDelivers(s: State, sender: string, order: seq<string>)
    requires Distinct(order)
    ensures Announce(s, sender, Elements(order)) == Deliver(s, Counts(sender, order))
    decreases |order|
  {
    if order == [] {
      assert forall i :: Announced(s, i, sender, Elements(order)) == {};
      assert forall i :: i in s.queues ==> Announce(s, sender, Elements(order)).queues[i] == s.queues[i];
      assert Announce(s, sender, Elements(order)).queues == s.queues;
    } else {
      AnnounceDelivers(Send(s, order[0], GroupEvent(sender, order[0])), sender, order[1..]);
      assert Counts(sender, order)[1..] == Counts(sender, order[1..]);
      assert Elements(order) == {order[0]} + Elements(order[1..]);
      AnnounceOneMore(s, sender, order[0], Elements(order[1..]));
    }
  }

  // ---------- Leaving ----------

  /** Nobody is subscribed to the inbox of somebody else. */
  ghost predicate OwnInboxes(s: State) {
    forall i, u :: IsMember(s, i, Inbox(u)) ==> i == u
  }

  lemma InboxesAreOwn(s: State)
    requires ChatIsolation.Inv(s)
    ensures OwnInboxes(s)
  {
    forall i, u | IsMember(s, i, Inbox(u)) ensures i == u {
      ChatIsolation.InboxHasOneMember(s, i, u);
    }
  }

  lemma NoticesAreOne(s: State, i: string, sender: string, chats: map<string, string>)
    requires OwnInboxes(s)
    ensures Notices(s, i, sender, chats) ==
      if i in chats && IsMember(s, i, Inbox(i)) then {OfflineEvent(sender, chats[i])} else {}
  {
    if i in chats && IsMember(s, i, Inbox(i)) {
      assert OfflineEvent(sender, chats[i]) in Notices(s, i, sender, chats);
    }
  }

  lemma SendKeepsInboxes(s: State, group: string, e: Event)
    requires OwnInboxes(s)
    ensures OwnInboxes(Send(s, group, e))
  {
    forall i, u | IsMember(Send(s, group, e), i, Inbox(u)) ensures i == u {
      assert IsMember(s, i, Inbox(u));
    }
  }

  lemma NotifyOneMoreAt(s: State, sender: string, chats: map<string, string>, p: string, i: string)
    requires OwnInboxes(s) && p in chats && i in s.queues
    ensures
      NotifyPartners(Send(s, Inbox(p), OfflineEvent(sender, chats[p])), sender, chats - {p}).queues[i]
      == NotifyPartners(s, sender, chats).queues[i]
  {
    var sent := Send(s, Inbox(p), OfflineEvent(sender, chats[p]));
    SendKeepsInboxes(s, Inbox(p), OfflineEvent(sender, chats[p]));
    NoticesAreOne(s, i, sender, chats);
    NoticesAreOne(sent, i, sender, chats - {p});
  }

  /** Telling one partner first and then the others is telling them all. */
  lemma NotifyOneMore(s: State, sender: string, chats: map<string, string>, p: string)
    requires OwnInboxes(s) && p in chats
    ensures NotifyPartners(Send(s, Inbox(p), OfflineEvent(sender, chats[p])), sender, chats - {p})
         == NotifyPartners(s, sender, chats)
  {
    var sent := Send(s, Inbox(p), OfflineEvent(sender, chats[p]));
    forall i | i in s.queues
      ensures NotifyPartners(sent, sender, chats - {p}).queues[i] == NotifyPartners(s, sender, chats).queues[i]
    {
      NotifyOneMoreAt(s, sender, chats, p, i);
    }
    SameQueues(NotifyPartners(sent, sender, chats - {p}), NotifyPartners(s, sender, chats));
  }

  /** In the step system the farewell of a leaving user is the delivery, one by one, of what the handler sends. */
  lemma {:induction false} FarewellsDeliver(s: State, sender: string, chats: map<string, string>, order: seq<string>)
    requires OwnInboxes(s) && Lists(order, chats.Keys) && forall p :: p in order ==> p in chats
    ensures NotifyPartners(s, sender, chats) == Deliver(s, Farewells(sender, chats, order))
    decreases |order|
  {
    if order == [] {
      assert forall i :: Notices(s, i, sender, chats) == {};
      SameQueues(NotifyPartners(s, sender, chats), s);
    } else {
      var p, rest := order[0], order[1..];
      ListsTail(order, chats.Keys);
      SendKeepsInboxes(s, Inbox(p), OfflineEvent(sender, chats[p]));
      FarewellsDeliver(Send(s, Inbox(p), OfflineEvent(sender, chats[p])), sender, chats - {p}, rest);
      NotifyOneMore(s, sender, chats, p);
      assert Farewells(sender, chats, order)[1..] == Farewells(sender, chats - {p}, rest);
    }
  }

  lemma ListsTail(order: seq<string>, elements: set<string>)
    requires Lists(order, elements) && order != []
    ensures Lists(order[1..], elements - {order[0]})
  {
    assert forall x :: x in order <==> x == order[0] || x in order[1..];
  }

  /** A disconnect, as the consumer goes about it: farewells, then out of every group, each of which is told. */
  lemma {:induction false} DisconnectDelivers(s: State, id: string, partners: seq<string>, groups: seq<string>)
    requires ChatIsolation.Inv(s) && id in s.conns
    requires Lists(partners, s.conns[id].chats.Keys) && forall p :: p in partners ==> p in s.conns[id].chats
    requires Lists(groups, s.conns[id].groups)
    ensures DoDisconnect(s, id) ==
      Deliver(Drop(Deliver(s, Farewells(id, s.conns[id].chats, partners)), id), Counts(id, groups))
      .(online := s.online - {id})
  {
    InboxesAreOwn(s);
    FarewellsDeliver(s, id, s.conns[id].chats, partners);
    AnnounceDelivers(Drop(NotifyPartners(s, id, s.conns[id].chats), id), id, groups);
  }

  // ---------- Connecting ----------

  /** Each restored chat has a group of its own. */
  lemma ChatsHaveOwnGroups(s: State, id: string, chats: map<string, string>)
    requires ChatIsolation.Inv(s) && id in s.issued && ChatIsolation.ChatsOk(s.issued, id, chats)
    ensures forall p, q :: p in chats && q in chats && chats[p] == chats[q] ==> p == q
  {
    forall p, q | p in chats && q in chats && chats[p] == chats[q] ensures p == q {
      ChatIsolation.PairIsFixed(chats[p], id, p, id, q);
    }
  }

  function GroupsOf(chats: map<string, string>, order: seq<string>): seq<string>
    requires forall p :: p in order ==> p in chats
  {
    seq(|order|, i requires 0 <= i < |order| => chats[order[i]])
  }

  lemma GroupsAreListed(chats: map<string, string>, order: seq<string>)
    requires Lists(order, chats.Keys) && forall p :: p in order ==> p in chats
    requires forall p, q :: p in chats && q in chats && chats[p] == chats[q] ==> p == q
    ensures Lists(GroupsOf(chats, order), chats.Values)
  {
    var groups := GroupsOf(chats, order);
    forall g | g in chats.Values ensures g in groups {
      var p :| p in chats && chats[p] == g;
      assert p in Elements(order);
      var i :| 0 <= i < |order| && order[i] == p;
      assert groups[i] == g;
    }
  }

  /** A connect, as the consumer goes about it: the restored groups are rejoined, and each is told once. */
  lemma {:induction false} ConnectDelivers(s: State, id: string, live: set<string>, order: seq<string>)
    requires ChatIsolation.Inv(s) && id in s.issued && id !in s.conns
    requires Lists(order, Labelled(HashOf(s, id), live).Keys)
    requires forall p :: p in order ==> p in Labelled(HashOf(s, id), live)
    ensures DoConnect(s, id, live) == Deliver(Joined(s, id, live), Presences(id, Labelled(HashOf(s, id), live), order))
  {
    HashIsOk(s, id);
    ChatIsolation.ConnectedOk(s.issued, id, HashOf(s, id), live);
    ChatsHaveOwnGroups(s, id, Labelled(HashOf(s, id), live));
    PresencesDeliver(Joined(s, id, live), id, Labelled(HashOf(s, id), live), order);
  }

  lemma HashIsOk(s: State, id: string)
    requires ChatIsolation.Inv(s)
    ensures ChatIsolation.ChatsOk(s.issued, id, HashOf(s, id))
  {
    if id in s.hashes {
      assert ChatIsolation.ChatsOk(s.issued, id, s.hashes[id]);
    }
  }

  lemma PresencesDeliver(s: State, id: string, chats: map<string, string>, order: seq<string>)
    requires Lists(order, chats.Keys) && forall p :: p in order ==> p in chats
    requires forall p, q :: p in chats && q in chats && chats[p] == chats[q] ==> p == q
    ensures Announce(s, id, chats.Values) == Deliver(s, Presences(id, chats, order))
  {
    GroupsAreListed(chats, order);
    AnnounceDelivers(s, id, GroupsOf(chats, order));
    assert Counts(id, GroupsOf(chats, order)) == Presences(id, chats, order);
  }

  // ---------- The steps, from the fields ----------

  /** What an invite sends: to the own inbox that the partner is offline; or to the partner, and the group, that it is on. */
  lemma InviteSends(id: string, outcome: Outcome)
    ensures match outcome
      case OFFLINE(target, group) => SentBy(id, outcome) == [Message(Inbox(id), OfflineEvent(target, group))]
      case OPENED(target, group, notify) =>
        SentBy(id, outcome) ==
          if notify then [Message(Inbox(target), InviteEvent(id, group)), Message(group, GroupEvent(id, group))] else []
      case _ => SentBy(id, outcome) == []
  {
  }

  /** Sending to a group adds the event, once, to the queue of each of its members, and changes nothing else. */
  lemma SendMeans(s: State, group: string, e: Event, i: string, x: Event)
    requires i in s.queues
    ensures var s' := Send(s, group, e);
      && s'.queues.Keys == s.queues.Keys
      && s' == s.(queues := s'.queues)
      && s'.queues[i][x] == s.queues[i][x] + if x == e && i in s.conns && group in s.conns[i].groups then 1 else 0
  {
  }

  /** Handling an event takes it off the queue, and does to the consumer what `ChatInvite` and `UserOffline` do. */
  lemma ReceiveMeans(s: State, id: string, e: Event)
    requires id in s.conns && id in s.queues
    ensures var s', c := DoReceive(s, id, e), s.conns[id];
      && s'.queues == s.queues[id := s.queues[id] - multiset{e}]
      && match e
         case InviteEvent(from, group) =>
           && s'.conns == s.conns[id := PrivateChats.Conn(c.id, c.groups + {group}, c.chats[from := group], c.closed - {from})]
           && s'.hashes == s.hashes[id := HashOf(s, id)[from := group]]
         case OfflineEvent(user, _) =>
           && s'.conns == s.conns[id := PrivateChats.Conn(c.id, c.groups, c.chats - {user}, c.closed)]
           && s'.hashes == s.hashes
         case GroupEvent(_, _) => s'.conns == s.conns && s'.hashes == s.hashes
  {
  }

  /** A close does to the consumer and its hash what `HandleClosePrivateChat` does. */
  lemma CloseMeans(s: State, id: string, target: string)
    requires id in s.conns
    ensures var s', c := DoClose(s, id, Some(target)), s.conns[id];
      if target in c.chats then
        && s'.conns == s.conns[id := PrivateChats.Conn(c.id, c.groups, c.chats, c.closed + {target})]
        && s'.hashes == s.hashes[id := HashOf(s, id) - {target}] && s'.queues == s.queues
      else s' == s
  {
  }

  /** A registration does to the consumer what `HandleRegisterGroup` does. */
  lemma RegisterMeans(s: State, id: string)
    requires id in s.conns
    ensures var s', c := DoRegister(s, id), s.conns[id];
      && s'.conns == s.conns[id := PrivateChats.Conn(c.id, c.groups + {"chatea", Inbox(id)}, c.chats, c.closed)]
      && s'.hashes == s.hashes
  {
  }

  /** A message is sent to its room, unless that is a private group its sender is not in. */
  lemma MessageMeans(s: State, id: string, room: string)
    requires id in s.conns
    ensures Do(s, SendMessage(id, room)) ==
      if |room| >= 8 && room[..8] == "private-" && room !in s.conns[id].groups then s
      else Deliver(s, [Message(room, GroupEvent(id, room))])
  {
    assert IsPrivate(room) <==> |room| >= 8 && room[..8] == "private-";
    var messages := [Message(room, GroupEvent(id, room))];
    assert messages[1..] == [];
  }

  /** Each enabled step is the work of its handler; a crash takes the connection and its queue, and says nothing. */
  lemma SessionSteps(s: State, id: string, live: set<string>)
    ensures id in s.issued && id !in s.conns ==> Do(s, Connect(id, live)) == DoConnect(s, id, live)
    ensures id in s.conns ==> Do(s, Disconnect(id)) == DoDisconnect(s, id) && Do(s, RegisterGroup(id)) == DoRegister(s, id)
    ensures Do(s, Crash(id)) == s.(conns := s.conns - {id}, queues := s.queues - {id})
  {
  }

  lemma InviteStep(s: State, id: string, request: Option<string>, access: Access)
    requires id in s.conns
    ensures Do(s, SendInvite(id, request, access)) == Perform(s, id, OutcomeOf(s, id, request, access))
  {
  }

  lemma ChatSteps(s: State, id: string, request: Option<string>, e: Event)
    requires id in s.conns
    ensures Do(s, CloseChat(id, request)) == DoClose(s, id, request)
    ensures id in s.queues && e in s.queues[id] ==> Do(s, Receive(id, e)) == DoReceive(s, id, e)
  {
  }

  /** A connection starts with exactly the stored chats it can label, joins their groups, and forgets the other ones. */
  lemma ConnectMeans(s: State, id: string, live: set<string>)
    ensures var s' := DoConnect(s, id, live);
      var kept := map t | t in HashOf(s, id) && t in live :: HashOf(s, id)[t];
      && s'.conns == s.conns[id := PrivateChats.Conn(id, kept.Values, kept, {})]
      && s'.hashes == s.hashes[id := kept]
      && s'.queues.Keys == s.queues.Keys + {id}
  {
  }

  /** Whether a partner is online or a bot is asked of the presence markers and the bot set. */
  lemma OutcomeAsks(s: State, id: string, target: string, access: Access)
    requires id in s.conns
    ensures OutcomeOf(s, id, Some(target), access) ==
      InviteOutcome(s.conns[id], Some(target), access, target in s.online, target in s.bots)
    ensures OutcomeOf(s, id, None, access) == IGNORED
  {
  }

  /** A connection and a heartbeat mark the user online; a disconnect, and in time a silence, end that. */
  lemma PresenceMeans(s: State, id: string, live: set<string>)
    ensures id in s.issued && id !in s.conns ==> Do(s, Connect(id, live)).online == s.online + {id}
    ensures id in s.conns ==> Do(s, Heartbeat(id)) == s.(online := s.online + {id})
    ensures id in s.conns ==> Do(s, Disconnect(id)).online == s.online - {id}
    ensures Do(s, PresenceExpires(id)) == s.(online := s.online - {id})
    ensures Do(s, HashExpires(id)) == s.(hashes := s.hashes - {id})
  {
  }

  /** Ids are issued as decimal keys or guest ids, and only issued ones become bots. */
  lemma IssuingMeans(s: State, n: nat, guest: bool, ids: set<string>)
    ensures Do(s, IssueId(n, guest)) == s.(issued := s.issued + {if guest then GuestId(n) else Numerals.Decimal(n)})
    ensures Do(s, SetBots(ids)) == if ids <= s.issued then s.(bots := ids) else s
  {
  }

  lemma AfterSnoc(s: State, steps: seq<Step>, step: Step)
    ensures After(s, steps + [step]) == Do(After(s, steps), step) && After(s, []) == s
  {
    assert (steps + [step])[..|steps|] == steps;
  }

  // ---------- The consumer ----------

  /** What came of a client's request to join a group. */
  datatype JoinOutcome = JOINED | SOCKET_CLOSED

  /** What came of a message a client sent: the socket is closed, or the client told what is wrong, or it is out. */
  datatype SendOutcome = CLOSED_NO_GROUP | NOT_A_MEMBER | CLOSED_TOO_FAST | NOT_A_MESSAGE | BROADCAST

  class ChatConsumer {
    const id: string
    var groups: set<string>
    var chats: map<string, string>
    var closed: set<string>
    var sent: seq<Message>

    function Conn(): Conn
      reads this
    {
      PrivateChats.Conn(id, groups, chats, closed)
    }

    constructor (id: string)
      ensures this.id == id && Conn() == PrivateChats.Conn(id, {}, map[], {}) && sent == []
    {
      this.id, groups, chats, closed, sent := id, {}, map[], {}, [];
    }

    method GroupSend(group: string, event: Event)
      modifies `sent
      ensures sent == old(sent) + [Message(group, event)]
    {
      sent := sent + [Message(group, event)];
    }

    method RegisterUserToGroup(group: string)
      modifies `groups
      ensures groups == old(groups) + {group}
    {
      if group !in groups {
        groups := groups + {group};
      }
    }

    /** `online` and `bot` are what Redis answers about the target. */
    method HandlePrivateInvite(request: Option<string>, access: Access, online: bool, bot: bool, redis: RedisHashes)
      returns (denial: Option<DenialReason>)
      modifies this, redis
      ensures var outcome := InviteOutcome(old(Conn()), request, access, online, bot);
        && Conn() == AfterInvite(old(Conn()), outcome)
        && sent == old(sent) + SentBy(id, outcome)
        && denial == (if outcome.DENIED? then Some(outcome.reason) else None)
        && redis.hashes == if outcome.OPENED? then old(redis.hashes)[id := old(redis.Get(id))[outcome.target := outcome.group]]
                           else old(redis.hashes)
    {
      if request == None || request.value == id {
        return None;
      }
      var target := request.value;
      var open := OpenChats(Conn());
      if target in open && open[target] != "" {
        return None;
      }
      if access != UNLIMITED && |open| >= FREE_PRIVATE_CHAT_LIMIT {
        return Some(CeilingDenial(access));
      }
      var group := if target in chats && chats[target] != "" then chats[target] else PrivateGroup(id, target);
      if !online && !bot {
        GroupSend(Inbox(id), OfflineEvent(target, group));
        return None;
      }
      OpenPrivateChat(target, group, redis);
      if bot {
        return None;
      }
      GroupSend(Inbox(target), InviteEvent(id, group));
      GroupSend(group, GroupEvent(id, group));
      return None;
    }

    /** What both sides of an invite do: join, save, and record the chat as open. */
    method OpenPrivateChat(partner: string, group: string, redis: RedisHashes)
      modifies `groups, `chats, `closed, redis
      ensures Conn() == Take(old(Conn()), partner, group)
      ensures groups == old(groups) + {group} && chats == old(chats)[partner := group] && closed == old(closed) - {partner}
      ensures redis.hashes == old(redis.hashes)[id := old(redis.Get(id))[partner := group]]
    {
      RegisterUserToGroup(group);
      redis.SaveUserPrivateChatGroup(id, partner, group);
      chats := chats[partner := group];
      closed := closed - {partner};
    }

    method ChatInvite(from: string, group: string, redis: RedisHashes)
      modifies this, redis
      ensures Conn() == Take(old(Conn()), from, group) && sent == old(sent)
      ensures groups == old(groups) + {group} && chats == old(chats)[from := group] && closed == old(closed) - {from}
      ensures redis.hashes == old(redis.hashes)[id := old(redis.Get(id))[from := group]]
    {
      OpenPrivateChat(from, group, redis);
    }

    method UserOffline(user: string)
      modifies `chats
      ensures chats == old(chats) - {user}
    {
      chats := chats - {user};
    }

    /** The slot is freed; the subscription and the ledger entry stay. */
    method HandleClosePrivateChat(request: Option<string>, redis: RedisHashes)
      modifies `closed, redis
      ensures Conn() == AfterClose(old(Conn()), request)
      ensures var accepted := request.Some? && request.value in chats;
        && closed == (if accepted then old(closed) + {request.value} else old(closed))
        && OpenChats(Conn()) == (if accepted then OpenChats(old(Conn())) - {request.value} else OpenChats(old(Conn())))
        && groups == old(groups) && chats == old(chats)
      ensures redis.hashes == if CloseAccepted(old(Conn()), request) then old(redis.hashes)[id := old(redis.Get(id)) - {request.value}]
                              else old(redis.hashes)
    {
      if request == None || request.value !in chats {
        return;
      }
      closed := closed + {request.value};
      redis.RemoveUserPrivateChatGroup(id, request.value);
    }

    /** Only the lobby can be joined on request, and the user's inbox comes with it; for anything else the socket goes. */
    method HandleRegisterGroup(field: Option<string>) returns (outcome: JoinOutcome)
      modifies `groups, `sent
      ensures outcome.JOINED? <==> NamedGroup(field) == Some(LOBBY)
      ensures groups == if outcome.JOINED? then old(groups) + {LOBBY, Inbox(id)} else old(groups)
      ensures sent == old(sent) + if outcome.JOINED? then [Message(LOBBY, GroupEvent(id, LOBBY))] else []
    {
      var named := NamedGroup(field);
      if named != Some(LOBBY) {
        return SOCKET_CLOSED;
      }
      var group := named.value;
      RegisterUserToGroup(group);
      RegisterUserToGroup(Inbox(id));
      GroupSend(group, GroupEvent(id, group));
      return JOINED;
    }

    /**
     A private group takes messages from its members only. A message counts against the rate limit once its
     group is accepted, before its text is looked at; `now` and `later` are the times of the two cache commands.
     */
    method HandleSendMessage(groupField: Option<string>, textField: Option<string>, limiter: RateLimit.MessageLimiter, now: int, later: int)
      returns (outcome: SendOutcome)
      modifies `sent, limiter
      ensures var named, key := NamedGroup(groupField), RateLimit.RateKey(id);
        && (outcome.CLOSED_NO_GROUP? <==> named.None?)
        && (outcome.NOT_A_MEMBER? <==> named.Some? && IsPrivate(named.value) && named.value !in groups)
        && (outcome in {CLOSED_NO_GROUP, NOT_A_MEMBER} ==> limiter.cache == old(limiter.cache))
        && (outcome !in {CLOSED_NO_GROUP, NOT_A_MEMBER} ==>
              && limiter.cache == RateLimit.Counted(old(limiter.cache), key, now, later)
              && (outcome.CLOSED_TOO_FAST? <==> RateLimit.Limited(old(limiter.cache), key, now, later))
              && (outcome.BROADCAST? <==> !outcome.CLOSED_TOO_FAST? && IsMessage(textField)))
      ensures sent == old(sent) +
        if outcome.BROADCAST? then [Message(NamedGroup(groupField).value, GroupEvent(id, NamedGroup(groupField).value))] else []
    {
      var named := NamedGroup(groupField);
      if named.None? {
        return CLOSED_NO_GROUP;
      }
      var room := named.value;
      if IsPrivate(room) && room !in groups {
        return NOT_A_MEMBER;
      }
      var limited := limiter.IsRateLimited(RateLimit.RateKey(id), now, later);
      if limited {
        return CLOSED_TOO_FAST;
      }
      if !IsMessage(textField) {
        return NOT_A_MESSAGE;
      }
      GroupSend(room, GroupEvent(id, room));
      return BROADCAST;
    }

    /**
     Restores the stored chats that can still be labelled, drops the others from the hash, rejoins the groups
     and announces the user once per restored chat, in the order the hash lists them.
     */
    method RestoreUserPrivateChatGroups(redis: RedisHashes, live: set<string>) returns (ghost order: seq<string>)
      requires groups == {} && chats == map[] && closed == {}
      modifies this, redis
      ensures Conn() == Connected(id, old(redis.Get(id)), live)
      ensures redis.Get(id) == Labelled(old(redis.Get(id)), live)
      ensures forall other :: other != id ==> redis.Get(other) == old(redis.Get(other))
      ensures Lists(order, chats.Keys) && forall p :: p in order ==> p in chats
      ensures sent == old(sent) + Presences(id, chats, order)
    {
      chats := DropUnlabelled(redis, live);
      order := RejoinGroups();
    }

    /** The stored chats that can still be labelled; the others are dropped from the hash. */
    method DropUnlabelled(redis: RedisHashes, live: set<string>) returns (restored: map<string, string>)
      modifies redis
      ensures restored == Labelled(old(redis.Get(id)), live) && redis.Get(id) == restored
      ensures forall other :: other != id ==> redis.Get(other) == old(redis.Get(other))
    {
      var stored := redis.Get(id);
      restored := map[];
      var pending := stored.Keys;
      while pending != {}
        invariant pending <= stored.Keys
        invariant restored == map t | t in stored && t !in pending && t in live :: stored[t]
        invariant redis.Get(id) == map t | t in stored && (t in pending || t in live) :: stored[t]
        invariant forall other :: other != id ==> redis.Get(other) == old(redis.Get(other))
      {
        var target :| target in pending;
        pending := pending - {target};
        if target !in live {
          redis.RemoveUserPrivateChatGroup(id, target);
        } else {
          restored := restored[target := stored[target]];
        }
      }
    }

    method RejoinGroups() returns (ghost order: seq<string>)
      requires groups == {}
      modifies `groups, `sent
      ensures groups == chats.Values && Lists(order, chats.Keys) && forall p :: p in order ==> p in chats
      ensures sent == old(sent) + Presences(id, chats, order)
    {
      order := [];
      var ledger := chats;
      var pending := ledger.Keys;
      ghost var done: set<string> := {};
      while pending != {}
        invariant done + pending == ledger.Keys && done !! pending
        invariant groups == JoinedGroups(ledger, done)
        invariant Lists(order, done) && forall p :: p in order ==> p in ledger
        invariant sent == old(sent) + Presences(id, ledger, order)
      {
        var target :| target in pending;
        RejoinGroup(target);
        ListsSnoc(order, done, target);
        PresencesSnoc(id, ledger, order, target);
        pending, done, order := pending - {target}, done + {target}, order + [target];
      }
    }

    method RejoinGroup(partner: string)
      requires partner in chats
      modifies `groups, `sent
      ensures groups == old(groups) + {chats[partner]}
      ensures sent == old(sent) + [Message(chats[partner], GroupEvent(id, chats[partner]))]
    {
      RegisterUserToGroup(chats[partner]);
      GroupSend(chats[partner], GroupEvent(id, chats[partner]));
    }

    /** Tells every partner in the ledger, at its inbox, that this user is gone. */
    method BroadcastUserOffline() returns (ghost order: seq<string>)
      modifies `sent
      ensures Lists(order, chats.Keys) && forall p :: p in order ==> p in chats
      ensures sent == old(sent) + Farewells(id, chats, order)
    {
      order := [];
      var pending := chats.Keys;
      while pending != {}
        invariant pending <= chats.Keys
        invariant Lists(order, chats.Keys - pending) && forall p :: p in order ==> p in chats
        invariant sent == old(sent) + Farewells(id, chats, order)
      {
        var target :| target in pending;
        assert chats.Keys - (pending - {target}) == (chats.Keys - pending) + {target};
        pending := pending - {target};
        order := order + [target];
        GroupSend(Inbox(target), OfflineEvent(id, chats[target]));
      }
    }

    /** Leaves every group, and tells each one its new count. */
    method UnregisterUserFromAllGroups() returns (ghost order: seq<string>)
      modifies `groups, `sent
      ensures groups == {} && Lists(order, old(groups))
      ensures sent == old(sent) + Counts(id, order)
    {
      order := [];
      var pending := groups;
      while pending != {}
        invariant pending <= groups == old(groups)
        invariant Lists(order, groups - pending)
        invariant sent == old(sent) + Counts(id, order)
      {
        var group :| group in pending;
        assert groups - (pending - {group}) == (groups - pending) + {group};
        pending := pending - {group};
        order := order + [group];
        GroupSend(group, GroupEvent(id, group));
      }
      groups := {};
    }
  }
}
