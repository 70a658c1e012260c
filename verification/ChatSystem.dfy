/**
 The private-chat protocol across connections: consumers, the channel layer's events in flight, and the
 Redis state that outlives a connection (apps/chat/consumers.py, apps/chat/services/actions/). A consumer
 handles one thing at a time, so one handler is one step; an identity has one live connection. A step that
 is not enabled changes nothing, so `After` over every sequence of steps ranges over every reachable state.
 */
module ChatSystem {
  import opened Options
  import opened Numerals
  import opened ChatIds
  import opened PrivateChats

  datatype Event =
    | InviteEvent(from: string, group: string)
    | OfflineEvent(user: string, chat: string)
    | GroupEvent(sender: string, room: string)  // a chat message, a presence or a count, sent to a whole group

  datatype State = State(
    issued: set<string>,
    bots: set<string>,
    online: set<string>,
    hashes: map<string, map<string, string>>,
    conns: map<string, Conn>,
    queues: map<string, multiset<Event>>)

  function Init(): State {
    State({}, {}, {}, map[], map[], map[])
  }

  datatype Step =
    | IssueId(number: nat, guest: bool)
    | SetBots(ids: set<string>)
    | Connect(id: string, live: set<string>)
    | Disconnect(id: string)
    | Crash(id: string)
    | RegisterGroup(id: string)
    | SendInvite(id: string, request: Option<string>, access: Access)
    | CloseChat(id: string, request: Option<string>)
    | SendMessage(id: string, room: string)
    | Receive(id: string, event: Event)
    | Heartbeat(id: string)
    | PresenceExpires(id: string)
    | HashExpires(id: string)

  function HashOf(s: State, id: string): map<string, string> {
    if id in s.hashes then s.hashes[id] else map[]
  }

  predicate IsMember(s: State, id: string, group: string) {
    id in s.conns && group in s.conns[id].groups
  }

  /** The channel layer puts an event in the queue of every member the group has at that moment. */
  function Send(s: State, group: string, e: Event): State {
    s.(queues := map i | i in s.queues :: s.queues[i] + if IsMember(s, i, group) then multiset{e} else multiset{})
  }

  /** What `id` receives when one event goes to each of the groups. */
  function Announced(s: State, id: string, sender: string, groups: set<string>): set<Event> {
    set g | g in groups && IsMember(s, id, g) :: GroupEvent(sender, g)
  }

  /** One presence or count event to each of the groups. */
  function Announce(s: State, sender: string, groups: set<string>): State {
    s.(queues := map i | i in s.queues :: s.queues[i] + multiset(Announced(s, i, sender, groups)))
  }

  /** What `id` receives when the sender's partners are told that it is gone. */
  function Notices(s: State, id: string, sender: string, chats: map<string, string>): set<Event> {
    set p | p in chats && IsMember(s, id, Inbox(p)) :: OfflineEvent(sender, chats[p])
  }

  /** The offline notice a leaving user sends to the inbox of each partner in its ledger. */
  function NotifyPartners(s: State, sender: string, chats: map<string, string>): State {
    s.(queues := map i | i in s.queues :: s.queues[i] + multiset(Notices(s, i, sender, chats)))
  }

  function Drop(s: State, id: string): State {
    s.(conns := s.conns - {id}, queues := s.queues - {id})
  }

  /** The consumer is in place with its chats restored, and has announced nothing yet. */
  function Joined(s: State, id: string, live: set<string>): State {
    s.(online := s.online + {id}, hashes := s.hashes[id := Labelled(HashOf(s, id), live)],
       conns := s.conns[id := Connected(id, HashOf(s, id), live)], queues := s.queues[id := multiset{}])
  }

  function DoConnect(s: State, id: string, live: set<string>): State {
    Announce(Joined(s, id, live), id, Connected(id, HashOf(s, id), live).groups)
  }

  function DoDisconnect(s: State, id: string): State
    requires id in s.conns
  {
    var c := s.conns[id];
    var left := Drop(NotifyPartners(s, id, c.chats), id);
    Announce(left, id, c.groups).(online := s.online - {id})
  }

  /** Only the lobby and the user's own inbox can be joined on request. */
  function DoRegister(s: State, id: string): State
    requires id in s.conns
  {
    var c := s.conns[id];
    Send(s.(conns := s.conns[id := c.(groups := c.groups + {LOBBY, Inbox(id)})]), LOBBY, GroupEvent(id, LOBBY))
  }

  /** Both sides of an invite join the group and write the ledger and the hash. */
  function DoTake(s: State, id: string, partner: string, group: string): State
    requires id in s.conns
  {
    s.(conns := s.conns[id := Take(s.conns[id], partner, group)],
       hashes := s.hashes[id := HashOf(s, id)[partner := group]])
  }

  function OutcomeOf(s: State, id: string, request: Option<string>, access: Access): Outcome
    requires id in s.conns
  {
    InviteOutcome(s.conns[id], request, access, request.Some? && request.value in s.online,
                  request.Some? && request.value in s.bots)
  }

  /** The invite goes to the partner's inbox, the sender's presence to the whole group. */
  function OfferChat(s: State, id: string, target: string, group: string): State {
    Send(Send(s, Inbox(target), InviteEvent(id, group)), group, GroupEvent(id, group))
  }

  function Perform(s: State, id: string, outcome: Outcome): State
    requires id in s.conns
  {
    match outcome
    case OFFLINE(target, group) => Send(s, Inbox(id), OfflineEvent(target, group))
    case OPENED(target, group, notify) =>
      var taken := DoTake(s, id, target, group);
      if notify then OfferChat(taken, id, target, group) else taken
    case _ => s
  }

  function DoInvite(s: State, id: string, request: Option<string>, access: Access): State
    requires id in s.conns
  {
    Perform(s, id, OutcomeOf(s, id, request, access))
  }

  function DoClose(s: State, id: string, request: Option<string>): State
    requires id in s.conns
  {
    var c := s.conns[id];
    if CloseAccepted(c, request) then
      s.(conns := s.conns[id := AfterClose(c, request)], hashes := s.hashes[id := HashOf(s, id) - {request.value}])
    else s
  }

  function Dequeue(s: State, id: string, e: Event): State
    requires id in s.queues
  {
    s.(queues := s.queues[id := s.queues[id] - multiset{e}])
  }

  function ForgetPartner(s: State, id: string, partner: string): State
    requires id in s.conns
  {
    s.(conns := s.conns[id := s.conns[id].(chats := s.conns[id].chats - {partner})])
  }

  function DoReceive(s: State, id: string, e: Event): State
    requires id in s.conns && id in s.queues
  {
    match e
    case InviteEvent(from, group) => DoTake(Dequeue(s, id, e), id, from, group)
    case OfflineEvent(user, _) => ForgetPartner(Dequeue(s, id, e), id, user)
    case GroupEvent(_, _) => Dequeue(s, id, e)
  }

  function Do(s: State, step: Step): State {
    match step
    case IssueId(n, guest) => s.(issued := s.issued + {if guest then GuestId(n) else Decimal(n)})
    case SetBots(ids) => if ids <= s.issued then s.(bots := ids) else s
    case Connect(id, live) => if id in s.issued && id !in s.conns then DoConnect(s, id, live) else s
    case Disconnect(id) => if id in s.conns then DoDisconnect(s, id) else s
    case Crash(id) => Drop(s, id)
    case RegisterGroup(id) => if id in s.conns then DoRegister(s, id) else s
    case SendInvite(id, request, access) => if id in s.conns then DoInvite(s, id, request, access) else s
    case CloseChat(id, request) => if id in s.conns then DoClose(s, id, request) else s
    case SendMessage(id, room) =>
      // A private group takes messages from its members only.
      if id in s.conns && (IsPrivate(room) ==> IsMember(s, id, room)) then Send(s, room, GroupEvent(id, room)) else s
    case Receive(id, e) => if id in s.conns && id in s.queues && e in s.queues[id] then DoReceive(s, id, e) else s
    case Heartbeat(id) => if id in s.conns then s.(online := s.online + {id}) else s
    case PresenceExpires(id) => s.(online := s.online - {id})
    case HashExpires(id) => s.(hashes := s.hashes - {id})
  }

  function After(s: State, steps: seq<Step>): State {
    if steps == [] then s else Do(After(s, steps[..|steps| - 1]), steps[|steps| - 1])
  }
}
