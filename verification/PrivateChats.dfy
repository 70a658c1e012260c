/**
 One chat connection's private chats as values: its ledger, the chats it has closed, its channel groups, and
 the Redis hash that outlives it (apps/chat/services/private_chats.py,
 apps/chat/services/actions/private_invite.py, apps/chat/services/actions/close_private_chat.py).
 */
module PrivateChats {
  import opened Options
  import opened ChatIds

  const FREE_PRIVATE_CHAT_LIMIT := 3

  datatype Access = UNLIMITED | PAYMENT_OVERDUE | FREE

  datatype DenialReason = LIMIT_REACHED | OVERDUE

  datatype Conn = Conn(id: string, groups: set<string>, chats: map<string, string>, closed: set<string>)

  /** The chats that count against the free-plan ceiling. */
  function OpenChats(c: Conn): map<string, string> {
    map t | t in c.chats && t !in c.closed :: c.chats[t]
  }

  function CeilingDenial(access: Access): DenialReason {
    if access.PAYMENT_OVERDUE? then OVERDUE else LIMIT_REACHED
  }

  datatype Outcome =
    | IGNORED
    | DENIED(reason: DenialReason, target: string)
    | OFFLINE(target: string, group: string)
    | OPENED(target: string, group: string, notify: bool)

  /** A chat that was opened before is reopened in its own group. */
  function GroupFor(c: Conn, target: string): string {
    if target in c.chats && c.chats[target] != "" then c.chats[target] else PrivateGroup(c.id, target)
  }

  function InviteOutcome(c: Conn, request: Option<string>, access: Access, online: bool, bot: bool): Outcome {
    match request
    case None => IGNORED
    case Some(target) =>
      var open := OpenChats(c);
      if target == c.id || (target in open && open[target] != "") then IGNORED
      else if access != UNLIMITED && |open| >= FREE_PRIVATE_CHAT_LIMIT then DENIED(CeilingDenial(access), target)
      else if !online && !bot then OFFLINE(target, GroupFor(c, target))
      else OPENED(target, GroupFor(c, target), !bot)
  }

  /** Joins the group and records the chat as open, as both sides of an invite do. */
  function Take(c: Conn, partner: string, group: string): Conn {
    Conn(c.id, c.groups + {group}, c.chats[partner := group], c.closed - {partner})
  }

  function AfterInvite(c: Conn, outcome: Outcome): Conn {
    if outcome.OPENED? then Take(c, outcome.target, outcome.group) else c
  }

  predicate CloseAccepted(c: Conn, request: Option<string>) {
    request.Some? && request.value in c.chats
  }

  function AfterClose(c: Conn, request: Option<string>): Conn {
    if CloseAccepted(c, request) then c.(closed := c.closed + {request.value}) else c
  }

  /** The stored chats whose partner can still be labelled with a nickname. */
  function Labelled(hash: map<string, string>, live: set<string>): map<string, string> {
    map t | t in hash && t in live :: hash[t]
  }

  /** A new connection: the labelled chats are restored and their groups rejoined. */
  function Connected(id: string, hash: map<string, string>, live: set<string>): Conn {
    Conn(id, Labelled(hash, live).Values, Labelled(hash, live), {})
  }

  // ---------- A run of one identity, one connection at a time ----------

  datatype Session = Session(conn: Conn, hash: map<string, string>)

  datatype Action =
    | Invite(request: Option<string>, access: Access, online: bool, bot: bool)
    | Incoming(from: string, group: string)
    | Close(closing: Option<string>)
    | PartnerOffline(user: string)
    | Reconnect(live: set<string>)

  function Act(s: Session, a: Action): Session {
    match a
    case Invite(request, access, online, bot) =>
      var outcome := InviteOutcome(s.conn, request, access, online, bot);
      Session(AfterInvite(s.conn, outcome), if outcome.OPENED? then s.hash[outcome.target := outcome.group] else s.hash)
    case Incoming(from, group) => Session(Take(s.conn, from, group), s.hash[from := group])
    case Close(closing) =>
      Session(AfterClose(s.conn, closing), if CloseAccepted(s.conn, closing) then s.hash - {closing.value} else s.hash)
    case PartnerOffline(user) => s.(conn := s.conn.(chats := s.conn.chats - {user}))
    case Reconnect(live) => Session(Connected(s.conn.id, s.hash, live), Labelled(s.hash, live))
  }

  function Run(s: Session, acts: seq<Action>): Session {
    if acts == [] then s else Act(Run(s, acts[..|acts| - 1]), acts[|acts| - 1])
  }

  // ---------- What an invite comes to, from the connection's own fields ----------

  lemma InviteToNobody(c: Conn, request: Option<string>, access: Access, online: bool, bot: bool)
    requires request == None || request == Some(c.id)
    ensures InviteOutcome(c, request, access, online, bot) == IGNORED
  {
  }

  /**
   An open chat is left alone; a capped account with three open chats or more is denied, with the reason that
   fits it; a partner that is neither online nor a bot is reported offline; any other chat is opened. A chat that
   the ledger holds, closed or not, keeps its group.
   */
  lemma InviteDecides(c: Conn, target: string, access: Access, online: bool, bot: bool)
    requires target != c.id
    ensures var open := set t | t in c.chats && t !in c.closed;
      var group := if target in c.chats && c.chats[target] != "" then c.chats[target] else PrivateGroup(c.id, target);
      var reason := if access == PAYMENT_OVERDUE then OVERDUE else LIMIT_REACHED;
      InviteOutcome(c, Some(target), access, online, bot) ==
        if target in open && c.chats[target] != "" then IGNORED
        else if access != UNLIMITED && |open| >= 3 then DENIED(reason, target)
        else if online || bot then OPENED(target, group, !bot)
        else OFFLINE(target, group)
  {
    assert OpenChats(c).Keys == set t | t in c.chats && t !in c.closed;
  }

  /** What it leaves of the connection: one more group and one more open chat, or no change. */
  lemma InviteLeaves(c: Conn, outcome: Outcome)
    ensures var c' := AfterInvite(c, outcome);
      match outcome
      case OPENED(target, group, _) =>
        && c'.id == c.id && c'.groups == c.groups + {group}
        && c'.chats == c.chats[target := group] && c'.closed == c.closed - {target}
      case _ => c' == c
  {
  }

  /** The step gives the partner no other group: its own invite or notice, or a new connection, could. */
  predicate LeavesGroup(a: Action, partner: string) {
    match a
    case Incoming(from, _) => from != partner
    case PartnerOffline(user) => user != partner
    case Reconnect(_) => false
    case _ => true
  }

  /** Through closes and reopenings a chat stays in its own group, whoever named it. */
  lemma {:induction false} GroupIsKept(s: Session, acts: seq<Action>, partner: string)
    requires partner in s.conn.chats && s.conn.chats[partner] != ""
    requires forall a :: a in acts ==> LeavesGroup(a, partner)
    ensures partner in Run(s, acts).conn.chats && Run(s, acts).conn.chats[partner] == s.conn.chats[partner]
  {
    if acts != [] {
      var before, a := acts[..|acts| - 1], acts[|acts| - 1];
      assert a in acts;
      GroupIsKept(s, before, partner);
      ActKeepsGroup(Run(s, before), a, partner);
    }
  }

  lemma ActKeepsGroup(s: Session, a: Action, partner: string)
    requires partner in s.conn.chats && s.conn.chats[partner] != "" && LeavesGroup(a, partner)
    ensures partner in Act(s, a).conn.chats && Act(s, a).conn.chats[partner] == s.conn.chats[partner]
  {
  }

  // ---------- The ceiling ----------

  /** The distinct partners whose incoming invites were handled. */
  function Inviters(acts: seq<Action>): set<string> {
    set a | a in acts && a.Incoming? :: a.from
  }

  /** One connection of an account that stays capped. */
  predicate Capped(acts: seq<Action>) {
    forall a :: a in acts ==> !a.Reconnect? && (a.Invite? ==> a.access != UNLIMITED)
  }

  function Max(a: nat, b: nat): nat {
    if a > b then a else b
  }

  lemma CardinalityOfSubset<T>(a: set<T>, b: set<T>)
    requires a <= b
    ensures |a| <= |b|
  {
    if a != {} {
      var x :| x in a;
      CardinalityOfSubset(a - {x}, b - {x});
    }
  }

  lemma InviteStaysUnderCeiling(c: Conn, request: Option<string>, access: Access, online: bool, bot: bool)
    requires access != UNLIMITED
    ensures var c' := AfterInvite(c, InviteOutcome(c, request, access, online, bot));
      c' == c || |OpenChats(c')| <= FREE_PRIVATE_CHAT_LIMIT
  {
    var outcome := InviteOutcome(c, request, access, online, bot);
    if outcome.OPENED? {
      var c' := AfterInvite(c, outcome);
      assert OpenChats(c').Keys == OpenChats(c).Keys + {outcome.target};
      CardinalityOfSubset(OpenChats(c').Keys, OpenChats(c).Keys + {outcome.target});
    }
  }

  /** Only an own invite adds an open chat that no incoming invite accounts for. */
  lemma OthersOpenNothing(s: Session, a: Action)
    requires !a.Invite? && !a.Reconnect?
    ensures OpenChats(Act(s, a).conn).Keys - (if a.Incoming? then {a.from} else {}) <= OpenChats(s.conn).Keys
  {
  }

  function Own(c: Conn, inviters: set<string>): set<string> {
    OpenChats(c).Keys - inviters
  }

  lemma ActStaysUnderCeiling(s: Session, a: Action, inviters: set<string>, limit: nat)
    requires Capped([a]) && limit >= FREE_PRIVATE_CHAT_LIMIT && |Own(s.conn, inviters)| <= limit
    ensures |Own(Act(s, a).conn, inviters + if a.Incoming? then {a.from} else {})| <= limit
  {
    assert a in [a];
    var s' := Act(s, a);
    if a.Invite? {
      InviteStaysUnderCeiling(s.conn, a.request, a.access, a.online, a.bot);
      CardinalityOfSubset(Own(s'.conn, inviters), OpenChats(s'.conn).Keys);
    } else {
      OthersOpenNothing(s, a);
      CardinalityOfSubset(Own(s'.conn, inviters + if a.Incoming? then {a.from} else {}), Own(s.conn, inviters));
    }
  }

  lemma InvitersSnoc(acts: seq<Action>, a: Action)
    ensures Inviters(acts + [a]) == Inviters(acts) + if a.Incoming? then {a.from} else {}
  {
    assert forall x :: x in acts + [a] <==> x in acts || x == a;
  }

  lemma CappedParts(acts: seq<Action>, a: Action)
    requires Capped(acts + [a])
    ensures Capped(acts) && Capped([a])
  {
    assert forall x :: x in acts + [a] <==> x in acts || x == a;
  }

  /** Open chats that no incoming invite accounts for never outgrow the ceiling or what was restored. */
  lemma {:induction false} OwnChatsStayUnderCeiling(s: Session, acts: seq<Action>)
    requires Capped(acts) && s.conn.closed == {}
    ensures |Own(Run(s, acts).conn, Inviters(acts))| <= Max(FREE_PRIVATE_CHAT_LIMIT, |s.conn.chats|)
  {
    if acts == [] {
      CardinalityOfSubset(Own(s.conn, Inviters(acts)), s.conn.chats.Keys);
    } else {
      var before, a := acts[..|acts| - 1], acts[|acts| - 1];
      assert acts == before + [a];
      CappedParts(before, a);
      OwnChatsStayUnderCeiling(s, before);
      InvitersSnoc(before, a);
      ActStaysUnderCeiling(Run(s, before), a, Inviters(before), Max(FREE_PRIVATE_CHAT_LIMIT, |s.conn.chats|));
    }
  }

  /**
   Through any run of one capped connection the open chats number at most the ceiling, or the chats restored
   at connect when those were more, plus one for each distinct partner whose invite came in.
   */
  lemma CeilingHolds(s: Session, acts: seq<Action>)
    requires Capped(acts) && s.conn.closed == {}
    ensures |OpenChats(Run(s, acts).conn)| <= Max(FREE_PRIVATE_CHAT_LIMIT, |s.conn.chats|) + |Inviters(acts)|
  {
    OwnChatsStayUnderCeiling(s, acts);
    var open := OpenChats(Run(s, acts).conn).Keys;
    assert open == (open - Inviters(acts)) + (open * Inviters(acts));
    CardinalityOfSubset(open * Inviters(acts), Inviters(acts));
  }

  // ---------- Restoring after a reconnect ----------

  /** Action `i` opened or accepted a chat with `partner`. */
  predicate Saves(s: Session, acts: seq<Action>, i: nat, partner: string)
    requires i < |acts|
  {
    match acts[i]
    case Invite(request, access, online, bot) =>
      var outcome := InviteOutcome(Run(s, acts[..i]).conn, request, access, online, bot);
      outcome.OPENED? && outcome.target == partner
    case Incoming(from, _) => from == partner
    case _ => false
  }

  /** The group under which action `i` saved the chat. */
  function SavedGroup(s: Session, acts: seq<Action>, i: nat, partner: string): string
    requires i < |acts| && Saves(s, acts, i, partner)
  {
    if acts[i].Incoming? then acts[i].group else GroupFor(Run(s, acts[..i]).conn, partner)
  }

  /** Action `i` closed the chat with `partner`, or dropped it because it could no longer be labelled. */
  predicate Drops(s: Session, acts: seq<Action>, i: nat, partner: string)
    requires i < |acts|
  {
    match acts[i]
    case Close(closing) => closing == Some(partner) && partner in Run(s, acts[..i]).conn.chats
    case Reconnect(live) => partner !in live
    case _ => false
  }

  function LastWrite(s: Session, acts: seq<Action>, partner: string): (last: Option<nat>)
    ensures last.Some? ==> last.value < |acts| && (Saves(s, acts, last.value, partner) || Drops(s, acts, last.value, partner))
    ensures forall k :: (if last.Some? then last.value + 1 else 0) <= k < |acts| ==>
      !Saves(s, acts, k, partner) && !Drops(s, acts, k, partner)
  {
    if acts == [] then None
    else
      var n := |acts| - 1;
      assert forall k :: 0 <= k < n ==> acts[..n][..k] == acts[..k];
      assert forall k :: 0 <= k < n ==> Saves(s, acts[..n], k, partner) == Saves(s, acts, k, partner);
      assert forall k :: 0 <= k < n ==> Drops(s, acts[..n], k, partner) == Drops(s, acts, k, partner);
      if Saves(s, acts, n, partner) || Drops(s, acts, n, partner) then Some(n) else LastWrite(s, acts[..n], partner)
  }

  /** The hash holds exactly the partners whose last write was an opening or an acceptance, with its group. */
  lemma {:induction false} HashHoldsLastSaves(s: Session, acts: seq<Action>, partner: string)
    requires s.hash == map[]
    ensures var last := LastWrite(s, acts, partner);
      var hash := Run(s, acts).hash;
      && (partner in hash <==> last.Some? && Saves(s, acts, last.value, partner))
      && (partner in hash ==> hash[partner] == SavedGroup(s, acts, last.value, partner))
  {
    if acts != [] {
      var n := |acts| - 1;
      HashHoldsLastSaves(s, acts[..n], partner);
      var last := LastWrite(s, acts[..n], partner);
      if last.Some? {
        assert acts[..n][..last.value] == acts[..last.value];
      }
      HashStep(s, acts, partner);
    }
  }

  /** An action changes a partner's field exactly when it saves or drops that chat. */
  lemma HashStep(s: Session, acts: seq<Action>, partner: string)
    requires acts != []
    ensures var n := |acts| - 1;
      var before, hash := Run(s, acts[..n]).hash, Run(s, acts).hash;
      if Saves(s, acts, n, partner) then partner in hash && hash[partner] == SavedGroup(s, acts, n, partner)
      else if Drops(s, acts, n, partner) then partner !in hash
      else (partner in hash <==> partner in before) && (partner in before ==> hash[partner] == before[partner])
  {
  }

  lemma {:induction false} RunKeepsId(s: Session, acts: seq<Action>)
    ensures Run(s, acts).conn.id == s.conn.id
  {
    if acts != [] {
      RunKeepsId(s, acts[..|acts| - 1]);
    }
  }

  /**
   After a reconnect the ledger is exactly the labelled partners whose last write was an opening or an
   acceptance, each with its last saved group, and those groups are exactly the ones rejoined.
   */
  lemma {:induction false} RestoreIsExact(s: Session, acts: seq<Action>, live: set<string>, partner: string)
    requires s.hash == map[]
    ensures var last := LastWrite(s, acts, partner);
      var conn := Run(s, acts + [Reconnect(live)]).conn;
      && (partner in conn.chats <==> partner in live && last.Some? && Saves(s, acts, last.value, partner))
      && (partner in conn.chats ==> conn.chats[partner] == SavedGroup(s, acts, last.value, partner))
      && conn.id == s.conn.id && conn.groups == conn.chats.Values && OpenChats(conn) == conn.chats
  {
    assert (acts + [Reconnect(live)])[..|acts|] == acts;
    HashHoldsLastSaves(s, acts, partner);
    RunKeepsId(s, acts);
  }

  // ---------- Which chats are open, and when the ceiling denies one ----------

  /** Action `i` closed the chat with `partner`, told that it is offline, or began a new connection. */
  predicate Unopens(s: Session, acts: seq<Action>, i: nat, partner: string)
    requires i < |acts|
  {
    match acts[i]
    case Close(closing) => closing == Some(partner) && partner in Run(s, acts[..i]).conn.chats
    case PartnerOffline(user) => user == partner
    case Reconnect(_) => true
    case _ => false
  }

  /** The new connection that action `i` began found the chat in the hash, and could label it. */
  predicate Restores(s: Session, acts: seq<Action>, i: nat, partner: string)
    requires i < |acts|
  {
    acts[i].Reconnect? && partner in acts[i].live && partner in Run(s, acts[..i]).hash
  }

  function LastTouch(s: Session, acts: seq<Action>, partner: string): (last: Option<nat>)
    ensures last.Some? ==>
      last.value < |acts| && (Saves(s, acts, last.value, partner) || Unopens(s, acts, last.value, partner))
    ensures forall k :: (if last.Some? then last.value + 1 else 0) <= k < |acts| ==>
      !Saves(s, acts, k, partner) && !Unopens(s, acts, k, partner)
  {
    if acts == [] then None
    else
      var n := |acts| - 1;
      assert forall k :: 0 <= k < n ==> acts[..n][..k] == acts[..k];
      assert forall k :: 0 <= k < n ==> Saves(s, acts[..n], k, partner) == Saves(s, acts, k, partner);
      assert forall k :: 0 <= k < n ==> Unopens(s, acts[..n], k, partner) == Unopens(s, acts, k, partner);
      if Saves(s, acts, n, partner) || Unopens(s, acts, n, partner) then Some(n) else LastTouch(s, acts[..n], partner)
  }

  /** The chat was last opened or accepted, or restored by a new connection; or it was open all along. */
  predicate OpenByHistory(s: Session, acts: seq<Action>, partner: string) {
    match LastTouch(s, acts, partner)
    case None => partner in s.conn.chats && partner !in s.conn.closed
    case Some(i) => Saves(s, acts, i, partner) || Restores(s, acts, i, partner)
  }

  lemma TouchStep(s: Session, acts: seq<Action>, partner: string)
    requires acts != []
    ensures var n := |acts| - 1;
      OpenByHistory(s, acts, partner) <==>
        Saves(s, acts, n, partner) || Restores(s, acts, n, partner)
        || (!Unopens(s, acts, n, partner) && OpenByHistory(s, acts[..n], partner))
  {
    var n := |acts| - 1;
    var last := LastTouch(s, acts[..n], partner);
    if last.Some? {
      assert acts[..n][..last.value] == acts[..last.value];
    }
  }

  predicate IsOpen(c: Conn, partner: string) {
    partner in c.chats && partner !in c.closed
  }

  lemma OpenStep(s: Session, acts: seq<Action>, partner: string)
    requires acts != []
    ensures var n := |acts| - 1;
      IsOpen(Run(s, acts).conn, partner) <==>
        Saves(s, acts, n, partner) || Restores(s, acts, n, partner)
        || (!Unopens(s, acts, n, partner) && IsOpen(Run(s, acts[..n]).conn, partner))
  {
  }

  /** Over every run, a chat is open exactly when its last opening, acceptance or restoring came after any close. */
  lemma {:induction false} OpenIffHistory(s: Session, acts: seq<Action>, partner: string)
    ensures IsOpen(Run(s, acts).conn, partner) <==> OpenByHistory(s, acts, partner)
    ensures partner in OpenChats(Run(s, acts).conn) <==> OpenByHistory(s, acts, partner)
  {
    if acts != [] {
      OpenIffHistory(s, acts[..|acts| - 1], partner);
      OpenStep(s, acts, partner);
      TouchStep(s, acts, partner);
    }
  }

  /**
   Over every run, a capped account that invites a partner with no open chat is denied exactly when three or more
   chats are open by their history; so a closed chat frees its slot.
   */
  lemma {:induction false} InviteIsDeniedIff(s: Session, acts: seq<Action>, target: string, access: Access, online: bool, bot: bool)
    returns (open: set<string>)
    requires access != UNLIMITED && target != s.conn.id && !OpenByHistory(s, acts, target)
    ensures forall p :: p in open <==> OpenByHistory(s, acts, p)
    ensures InviteOutcome(Run(s, acts).conn, Some(target), access, online, bot).DENIED? <==> |open| >= 3
  {
    var c := Run(s, acts).conn;
    open := set t | t in c.chats && t !in c.closed;
    forall p ensures p in open <==> OpenByHistory(s, acts, p) {
      OpenIffHistory(s, acts, p);
    }
    RunKeepsId(s, acts);
    InviteDecides(c, target, access, online, bot);
  }

  /** A close that is accepted takes the chat out of those that count, and touches nothing else. */
  lemma CloseFreesSlot(c: Conn, request: Option<string>)
    ensures var c' := AfterClose(c, request);
      && c'.id == c.id && c'.groups == c.groups && c'.chats == c.chats
      && if request.Some? && request.value in c.chats then OpenChats(c') == OpenChats(c) - {request.value} else c' == c
  {
  }
}
