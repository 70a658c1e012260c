/**
 Who owns a nickname (apps/chat/services/guest_session.py, apps/chat/services/register_user.py). Two expiring
 Redis mappings, nickname to id and id to nickname, are written by registrations, claims, heartbeats and
 logouts whose single Redis commands interleave.
 */
module GuestIdentity {
  import opened Options
  import opened ChatIds

  const GUEST_SESSION_MAX_AGE := 86400

  datatype Entry = Entry(value: string, expires: int)

  /** `names` is keyed by lower-case nickname and holds ids; `ids` is keyed by id and holds nicknames. */
  datatype Store = Store(now: int, names: map<string, Entry>, ids: map<string, Entry>)

  function Get(now: int, keys: map<string, Entry>, key: string): Option<string> {
    if key in keys && now < keys[key].expires then Some(keys[key].value) else None
  }

  function Put(now: int, keys: map<string, Entry>, key: string, value: string): map<string, Entry> {
    keys[key := Entry(value, now + GUEST_SESSION_MAX_AGE)]
  }

  /** EXPIRE renews a key that is still there and does nothing otherwise. */
  function Renew(now: int, keys: map<string, Entry>, key: string): map<string, Entry> {
    if Get(now, keys, key).Some? then Put(now, keys, key, keys[key].value) else keys
  }

  function Owner(r: Store, name: string): Option<string> {
    Get(r.now, r.names, name)
  }

  // ---------- The commands, one Redis round trip each ----------

  function PutName(r: Store, nick: string, id: string): Store {
    r.(names := Put(r.now, r.names, Lower(nick), id))
  }

  function PutId(r: Store, nick: string, id: string): Store {
    r.(ids := Put(r.now, r.ids, id, nick))
  }

  function RenewName(r: Store, nick: string): Store {
    r.(names := Renew(r.now, r.names, Lower(nick)))
  }

  function RenewId(r: Store, id: string): Store {
    r.(ids := Renew(r.now, r.ids, id))
  }

  // ---------- Claims in flight ----------

  /** A claim by the point it has reached; `won` when its SET NX took a free nickname. */
  datatype Phase = STARTED | REFUSED_ONCE | WRITING_ID(won: bool) | RENEWING | DONE(granted: bool)

  datatype Claim = Claim(nick: string, id: string, phase: Phase)
  {
    predicate Wins() { phase.WRITING_ID? || phase.RENEWING? || phase == DONE(true) }

    /** So far the claim has not been found legitimate. */
    predicate Loses() { phase.STARTED? || phase.REFUSED_ONCE? || phase == DONE(false) }
  }

  datatype State = State(redis: Store, claims: map<nat, Claim>)

  datatype Step =
    | BeginClaim(p: nat, nick: string, id: string)
    | Advance(p: nat)
    | RegisterId(nick: string, id: string)
    | RegisterName(nick: string, id: string)
    | HeartbeatName(nick: string)
    | HeartbeatId(id: string)
    | RevokeName(nick: string)
    | RevokeId(id: string)
    | Tick(elapsed: nat)

  /** The claim's next Redis command. */
  function AdvanceClaim(r: Store, c: Claim): (Store, Phase) {
    match c.phase
    case STARTED =>
      if Owner(r, Lower(c.nick)).None? then (PutName(r, c.nick, c.id), WRITING_ID(true)) else (r, REFUSED_ONCE)
    case REFUSED_ONCE =>
      if Owner(r, Lower(c.nick)) == Some(c.id) then (r, WRITING_ID(false)) else (r, DONE(false))
    case WRITING_ID(won) => (PutId(r, c.nick, c.id), if won then DONE(true) else RENEWING)
    case RENEWING => (RenewName(r, c.nick), DONE(true))
    case DONE(_) => (r, c.phase)
  }

  function Do(s: State, step: Step): State {
    match step
    case BeginClaim(p, nick, id) => if p in s.claims then s else s.(claims := s.claims[p := Claim(nick, id, STARTED)])
    case Advance(p) =>
      if p in s.claims then
        var (r, phase) := AdvanceClaim(s.redis, s.claims[p]);
        State(r, s.claims[p := s.claims[p].(phase := phase)])
      else s
    case RegisterId(nick, id) => s.(redis := PutId(s.redis, nick, id))
    case RegisterName(nick, id) => s.(redis := PutName(s.redis, nick, id))
    case HeartbeatName(nick) => s.(redis := RenewName(s.redis, nick))
    case HeartbeatId(id) => s.(redis := RenewId(s.redis, id))
    case RevokeName(nick) => s.(redis := s.redis.(names := s.redis.names - {Lower(nick)}))
    case RevokeId(id) => s.(redis := s.redis.(ids := s.redis.ids - {id}))
    case Tick(elapsed) => s.(redis := s.redis.(now := s.redis.now + elapsed))
  }

  function After(s: State, steps: seq<Step>): State {
    if steps == [] then s else Do(After(s, steps[..|steps| - 1]), steps[|steps| - 1])
  }

  // ---------- Ownership holds ----------

  /** The step neither re-registers nor revokes the nickname. */
  predicate Leaves(step: Step, name: string) {
    (step.RegisterName? || step.RevokeName?) ==> Lower(step.nick) != name
  }

  predicate IsRival(c: Claim, name: string, owner: string) {
    Lower(c.nick) == name && c.id != owner
  }

  /** The claims that have been granted already, or are about to be. */
  function Granted(s: State): set<nat> {
    set p | p in s.claims && s.claims[p].Wins()
  }

  /** `owner` holds the nickname, and nobody else's claim of it has been found legitimate, but for `earlier` ones. */
  ghost predicate Holds(s: State, name: string, owner: string, earlier: set<nat>) {
    && earlier <= s.claims.Keys
    && Owner(s.redis, name) == Some(owner)
    && forall p :: p in s.claims && p !in earlier && IsRival(s.claims[p], name, owner) ==> s.claims[p].Loses()
  }

  /** A registration takes the nickname over, whatever claims are under way. */
  lemma RegistrationTakesOver(s: State, nick: string, id: string)
    ensures Holds(Do(s, RegisterName(nick, id)), Lower(nick), id, Granted(s))
  {
  }

  lemma HoldsStep(s: State, step: Step, name: string, owner: string, earlier: set<nat>)
    requires Holds(s, name, owner, earlier) && Leaves(step, name)
    requires Owner(Do(s, step).redis, name).Some?
    ensures Holds(Do(s, step), name, owner, earlier)
  {
  }

  /**
   Once an id owns a nickname, it owns it until the nickname is re-registered, revoked or expires: no claim
   by another id succeeds meanwhile.
   */
  lemma {:induction false} OwnershipHolds(s: State, steps: seq<Step>, name: string, owner: string, earlier: set<nat>)
    requires Holds(s, name, owner, earlier)
    requires forall step :: step in steps ==> Leaves(step, name)
    requires forall k :: 0 <= k <= |steps| ==> Owner(After(s, steps[..k]).redis, name).Some?
    ensures Holds(After(s, steps), name, owner, earlier)
  {
    if steps != [] {
      var n := |steps| - 1;
      assert steps[n] in steps;
      assert forall k :: 0 <= k <= n ==> steps[..n][..k] == steps[..k];
      assert steps[..|steps|] == steps;
      OwnershipHolds(s, steps[..n], name, owner, earlier);
      HoldsStep(After(s, steps[..n]), steps[n], name, owner, earlier);
    }
  }

  /** While the owner holds the nickname, a rival's commands write nothing. */
  lemma RivalWritesNothing(s: State, p: nat, name: string, owner: string, earlier: set<nat>)
    requires Holds(s, name, owner, earlier) && p in s.claims && p !in earlier && IsRival(s.claims[p], name, owner)
    ensures Do(s, Advance(p)).redis == s.redis
  {
  }

  // ---------- Races for a free nickname ----------

  predicate Contends(s: State, p: nat, name: string, earlier: set<nat>) {
    p in s.claims && p !in earlier && Lower(s.claims[p].nick) == name
  }

  /**
   Either the nickname is still free and no contender has been found legitimate; or one contender has taken
   it, and every contender with another id loses.
   */
  ghost predicate Race(s: State, name: string, earlier: set<nat>) {
    && (forall p :: p in earlier ==> p in s.claims && !s.claims[p].phase.STARTED?)
    && if Owner(s.redis, name).None? then forall p :: Contends(s, p, name, earlier) ==> s.claims[p].Loses()
       else exists p :: Contends(s, p, name, earlier) && s.claims[p].Wins() && Holds(s, name, s.claims[p].id, earlier)
  }

  lemma RaceStep(s: State, step: Step, name: string, earlier: set<nat>)
    requires Race(s, name, earlier) && Leaves(step, name)
    requires Owner(s.redis, name).Some? ==> Owner(Do(s, step).redis, name).Some?
    ensures Race(Do(s, step), name, earlier)
  {
    if Owner(s.redis, name).Some? {
      TakenRaceStep(s, step, name, earlier);
    } else {
      FreeRaceStep(s, step, name, earlier);
    }
  }

  /** A claim never changes hands, and never leaves the state of having won. */
  lemma WinnerStays(s: State, step: Step, p: nat)
    requires p in s.claims
    ensures var s' := Do(s, step); p in s'.claims && s'.claims[p].id == s.claims[p].id && s'.claims[p].nick == s.claims[p].nick
    ensures s.claims[p].Wins() ==> Do(s, step).claims[p].Wins()
    ensures !s.claims[p].phase.STARTED? ==> !Do(s, step).claims[p].phase.STARTED?
  {
  }

  lemma TakenRaceStep(s: State, step: Step, name: string, earlier: set<nat>)
    requires Race(s, name, earlier) && Leaves(step, name)
    requires Owner(s.redis, name).Some? && Owner(Do(s, step).redis, name).Some?
    ensures Race(Do(s, step), name, earlier)
  {
    var p :| Contends(s, p, name, earlier) && s.claims[p].Wins() && Holds(s, name, s.claims[p].id, earlier);
    HoldsStep(s, step, name, s.claims[p].id, earlier);
    WinnerStays(s, step, p);
    assert Contends(Do(s, step), p, name, earlier);
    forall q | q in earlier ensures q in Do(s, step).claims && !Do(s, step).claims[q].phase.STARTED? {
      WinnerStays(s, step, q);
    }
  }

  /** The first SET NX on a free nickname takes it. */
  lemma FreeRaceStep(s: State, step: Step, name: string, earlier: set<nat>)
    requires Race(s, name, earlier) && Leaves(step, name) && Owner(s.redis, name).None?
    ensures Race(Do(s, step), name, earlier)
  {
    var s' := Do(s, step);
    if step.Advance? && Contends(s, step.p, name, earlier) && s.claims[step.p].phase.STARTED? {
      assert Contends(s', step.p, name, earlier) && s'.claims[step.p].Wins();
      assert Holds(s', name, s'.claims[step.p].id, earlier);
    }
  }

  /**
   Of concurrent claims of a free nickname by different ids exactly one wins: as soon as the nickname is
   taken, some claim made since it was free is granted or about to be, and every other id's claim loses.
   */
  lemma {:induction false} OneClaimWins(s: State, steps: seq<Step>, name: string)
    requires Owner(s.redis, name).None?
    requires forall step :: step in steps ==> Leaves(step, name)
    requires forall k :: 0 <= k < |steps| && Owner(After(s, steps[..k]).redis, name).Some? ==>
      Owner(After(s, steps[..k + 1]).redis, name).Some?
    ensures Race(After(s, steps), name, Granted(s))
  {
    if steps != [] {
      var n := |steps| - 1;
      assert steps[n] in steps;
      assert forall k :: 0 <= k <= n ==> steps[..n][..k] == steps[..k];
      assert steps[..n + 1] == steps;
      OneClaimWins(s, steps[..n], name);
      RaceStep(After(s, steps[..n]), steps[n], name, Granted(s));
    }
  }

  // ---------- Exactly when the two mappings agree ----------

  /** Whenever both mappings are live, the owner of a nickname maps back to it, up to case. */
  ghost predicate Consistent(r: Store) {
    forall name :: Owner(r, name).Some? && Get(r.now, r.ids, Owner(r, name).value).Some? ==>
      Lower(Get(r.now, r.ids, Owner(r, name).value).value) == name
  }

  /** Some other nickname still points at the id. */
  ghost predicate OwnsAnother(r: Store, name: string, id: string) {
    exists other :: other != name && Owner(r, other) == Some(id)
  }

  /** The id still points at some other nickname. */
  predicate GoesByAnother(r: Store, name: string, id: string) {
    var nick := Get(r.now, r.ids, id);
    nick.Some? && Lower(nick.value) != name
  }

  /** Writing an id's nickname keeps the agreement exactly when no other nickname points at the id. */
  lemma IdWriteAgreesIff(r: Store, nick: string, id: string)
    requires Consistent(r)
    ensures Consistent(PutId(r, nick, id)) <==> !OwnsAnother(r, Lower(nick), id)
  {
    var r' := PutId(r, nick, id);
    assert Get(r'.now, r'.ids, id) == Some(nick);
    assert forall name :: Owner(r', name) == Owner(r, name);
    if other :| other != Lower(nick) && Owner(r, other) == Some(id) {
      assert Owner(r', other) == Some(id);
    }
  }

  /** Writing a nickname's owner keeps the agreement exactly when the id points at no other nickname. */
  lemma NameWriteAgreesIff(r: Store, nick: string, id: string)
    requires Consistent(r)
    ensures Consistent(PutName(r, nick, id)) <==> !GoesByAnother(r, Lower(nick), id)
  {
    var r' := PutName(r, nick, id);
    assert Owner(r', Lower(nick)) == Some(id);
    assert forall name :: name != Lower(nick) ==> Owner(r', name) == Owner(r, name);
  }

  /** What is live later was live before, with the same value. */
  ghost predicate OnlyFades(r: Store, r': Store) {
    && (forall name :: Owner(r', name).Some? ==> Owner(r', name) == Owner(r, name))
    && (forall id :: Get(r'.now, r'.ids, id).Some? ==> Get(r'.now, r'.ids, id) == Get(r.now, r.ids, id))
  }

  lemma FadingKeepsAgreement(r: Store, r': Store)
    requires Consistent(r) && OnlyFades(r, r')
    ensures Consistent(r')
  {
  }

  /** Renewals, revocations and the passage of time write nothing new. */
  lemma RestFades(s: State, step: Step)
    requires !step.RegisterId? && !step.RegisterName? && !step.Advance?
    ensures OnlyFades(s.redis, Do(s, step).redis)
  {
  }

  /** Every write meets the condition that keeps the agreement at the moment it is made. */
  ghost predicate WriteAgrees(s: State, step: Step) {
    match step
    case RegisterId(nick, id) => !OwnsAnother(s.redis, Lower(nick), id)
    case RegisterName(nick, id) => !GoesByAnother(s.redis, Lower(nick), id)
    case Advance(p) => p in s.claims ==> ClaimWriteAgrees(s.redis, s.claims[p])
    case _ => true
  }

  /** A claim writes the nickname when its SET NX takes it, and the id once it has been found legitimate. */
  ghost predicate ClaimWriteAgrees(r: Store, c: Claim) {
    && (c.phase.STARTED? && Owner(r, Lower(c.nick)).None? ==> !GoesByAnother(r, Lower(c.nick), c.id))
    && (c.phase.WRITING_ID? ==> !OwnsAnother(r, Lower(c.nick), c.id))
  }

  lemma ClaimAgreesIff(r: Store, c: Claim)
    requires Consistent(r)
    ensures Consistent(AdvanceClaim(r, c).0) <==> ClaimWriteAgrees(r, c)
  {
    match c.phase
    case STARTED => NameWriteAgreesIff(r, c.nick, c.id);
    case WRITING_ID(_) => IdWriteAgreesIff(r, c.nick, c.id);
    case RENEWING => FadingKeepsAgreement(r, RenewName(r, c.nick));
    case _ =>
  }

  lemma StepAgreesIff(s: State, step: Step)
    requires Consistent(s.redis)
    ensures Consistent(Do(s, step).redis) <==> WriteAgrees(s, step)
  {
    match step
    case RegisterId(nick, id) => IdWriteAgreesIff(s.redis, nick, id);
    case RegisterName(nick, id) => NameWriteAgreesIff(s.redis, nick, id);
    case Advance(p) => if p in s.claims { ClaimAgreesIff(s.redis, s.claims[p]); }
    case _ =>
      RestFades(s, step);
      FadingKeepsAgreement(s.redis, Do(s, step).redis);
  }

  /** The mappings agree at the start and after every step. */
  ghost predicate AlwaysConsistent(s: State, steps: seq<Step>) {
    Consistent(After(s, steps).redis) && (steps != [] ==> AlwaysConsistent(s, steps[..|steps| - 1]))
  }

  ghost predicate EveryWriteAgrees(s: State, steps: seq<Step>) {
    steps != [] ==>
      var init := steps[..|steps| - 1];
      WriteAgrees(After(s, init), steps[|steps| - 1]) && EveryWriteAgrees(s, init)
  }

  /**
   Over every interleaving of single commands, from a store in which the mappings agree, they agree throughout
   exactly when every write, of a registration or of a claim, met its own condition when it was made.
   */
  lemma {:induction false} RunAgreesIff(s: State, steps: seq<Step>)
    requires Consistent(s.redis)
    ensures AlwaysConsistent(s, steps) <==> EveryWriteAgrees(s, steps)
  {
    if steps != [] {
      var init := steps[..|steps| - 1];
      RunAgreesIff(s, init);
      if AlwaysConsistent(s, init) {
        StepAgreesIff(After(s, init), steps[|steps| - 1]);
      }
    }
  }

  function Register(r: Store, nick: string, id: string): Store {
    PutName(PutId(r, nick, id), nick, id)
  }

  /** For a registration that nothing interrupts, one look at the nicknames is enough. */
  lemma RegisterAgreesIff(r: Store, nick: string, id: string)
    requires Consistent(r)
    ensures Consistent(Register(r, nick, id)) <==> !OwnsAnother(r, Lower(nick), id)
  {
    var r1, r' := PutId(r, nick, id), Register(r, nick, id);
    IdWriteAgreesIff(r, nick, id);
    assert Get(r1.now, r1.ids, id) == Some(nick);
    if other :| other != Lower(nick) && Owner(r, other) == Some(id) {
      assert Owner(r', other) == Some(id) && Get(r'.now, r'.ids, id) == Some(nick);
    } else {
      NameWriteAgreesIff(r1, nick, id);
    }
  }

  lemma SecondNickBreaksAgreement()
    ensures var r := Register(Register(Store(0, map[], map[]), "ana", "7"), "eva", "7");
      !Consistent(r)
  {
    var empty := Store(0, map[], map[]);
    var r := Register(empty, "ana", "7");
    AnaIsNotEva();
    assert Owner(r, Lower("ana")) == Some("7");
    assert Consistent(empty) && !OwnsAnother(empty, Lower("ana"), "7");
    RegisterAgreesIff(empty, "ana", "7");
    RegisterAgreesIff(r, "eva", "7");
  }

  lemma AnaIsNotEva()
    ensures Lower("ana") != Lower("eva")
  {
    assert Lower("ana")[0] == 'a' && Lower("eva")[0] == 'e';
  }

  /**
   Two registrations of one id, neither of which finds another nickname pointing at it when it begins, still
   leave the mappings in disagreement when their commands interleave.
   */
  lemma InterleavedRegistrationsDisagree()
    ensures var empty := Store(0, map[], map[]);
      var steps := [RegisterId("ana", "7"), RegisterId("eva", "7"), RegisterName("ana", "7")];
      && Consistent(empty) && !OwnsAnother(empty, Lower("ana"), "7") && !OwnsAnother(empty, Lower("eva"), "7")
      && !Consistent(After(State(empty, map[]), steps).redis)
  {
    var empty := Store(0, map[], map[]);
    var steps := [RegisterId("ana", "7"), RegisterId("eva", "7"), RegisterName("ana", "7")];
    AnaIsNotEva();
    IdWriteAgreesIff(empty, "ana", "7");
    IdWriteAgreesIff(PutId(empty, "ana", "7"), "eva", "7");
    NameWriteAgreesIff(PutId(PutId(empty, "ana", "7"), "eva", "7"), "ana", "7");
    assert steps[..2] == [steps[0], steps[1]] && steps[..2][..1] == [steps[0]] && [steps[0]][..0] == [];
    assert After(State(empty, map[]), [steps[0]]).redis == PutId(empty, "ana", "7");
    assert After(State(empty, map[]), steps[..2]).redis == PutId(PutId(empty, "ana", "7"), "eva", "7");
  }

  // ---------- Spellings and lifetimes ----------

  /** The claimant finds the nickname free, or its own. */
  predicate ClaimGranted(r: Store, nick: string, id: string) {
    Owner(r, Lower(nick)) in {None, Some(id)}
  }

  /**
   A registration takes the nickname in every spelling: every claim of it by another id is refused then, and by
   the same id granted. Other nicknames keep their owners.
   */
  lemma RegisteredInEverySpelling(r: Store, nick: string, id: string, spelling: string, claimant: string)
    ensures var r' := Register(r, nick, id);
      if SameSpelling(nick, spelling) then ClaimGranted(r', spelling, claimant) <==> claimant == id
      else ClaimGranted(r', spelling, claimant) <==> ClaimGranted(r, spelling, claimant)
  {
    LowerIdentifiesSpellings(nick, spelling);
  }

  /** On the way, too: a claim that a registration overtakes loses, however it spells the nickname, and writes nothing. */
  lemma OvertakenClaimLoses(s: State, nick: string, id: string, p: nat, spelling: string, claimant: string)
    requires p !in s.claims && claimant != id && SameSpelling(nick, spelling)
    ensures var registered := Do(Do(s, BeginClaim(p, spelling, claimant)), RegisterName(nick, id));
      var after := Do(Do(registered, Advance(p)), Advance(p));
      && after.redis == registered.redis == PutName(s.redis, nick, id)
      && after.claims == s.claims[p := Claim(spelling, claimant, DONE(false))]
  {
    LowerIdentifiesSpellings(nick, spelling);
    var registered := Do(Do(s, BeginClaim(p, spelling, claimant)), RegisterName(nick, id));
    assert Owner(registered.redis, Lower(nick)) == Some(id);
    assert AdvanceClaim(registered.redis, registered.claims[p]) == (registered.redis, REFUSED_ONCE);
    assert s.claims[p := Claim(spelling, claimant, STARTED)][p := Claim(spelling, claimant, REFUSED_ONCE)]
        == s.claims[p := Claim(spelling, claimant, REFUSED_ONCE)];
    assert s.claims[p := Claim(spelling, claimant, REFUSED_ONCE)][p := Claim(spelling, claimant, DONE(false))]
        == s.claims[p := Claim(spelling, claimant, DONE(false))];
  }

  /** The steps of a registration, of a heartbeat and of a logout are what the services do. */
  lemma StepsAreServices(s: State, nick: string, id: string)
    ensures Do(Do(s, RegisterId(nick, id)), RegisterName(nick, id)).redis == Register(s.redis, nick, id)
    ensures Do(Do(s, HeartbeatName(nick)), HeartbeatId(id)).redis == RenewId(RenewName(s.redis, nick), id)
    ensures var revoked := Do(Do(s, RevokeName(nick)), RevokeId(id)).redis;
      && Owner(revoked, Lower(nick)) == None && Get(revoked.now, revoked.ids, id) == None
      && (forall name :: name != Lower(nick) ==> Owner(revoked, name) == Owner(s.redis, name))
      && (forall other :: other != id ==> Get(revoked.now, revoked.ids, other) == Get(s.redis.now, s.redis.ids, other))
  {
  }

  lemma AfterSnoc(s: State, steps: seq<Step>, step: Step)
    ensures After(s, steps + [step]) == Do(After(s, steps), step)
    ensures After(s, []) == s
  {
    assert (steps + [step])[..|steps|] == steps;
  }

  /** Time only moves forward, and only by the clock. */
  lemma TickPasses(s: State, elapsed: nat)
    ensures Do(s, Tick(elapsed)) == State(Later(s.redis, elapsed), s.claims)
  {
  }

  function Later(r: Store, elapsed: nat): Store {
    r.(now := r.now + elapsed)
  }

  /** Left alone, a registration lasts exactly a day, both ways. */
  lemma RegistrationLastsADay(r: Store, nick: string, id: string, elapsed: nat)
    ensures var r' := Later(Register(r, nick, id), elapsed);
      && Owner(r', Lower(nick)) == (if elapsed < 86400 then Some(id) else None)
      && Get(r'.now, r'.ids, id) == (if elapsed < 86400 then Some(nick) else None)
  {
  }

  /** A heartbeat gives what is still live another day, and brings nothing back. */
  lemma HeartbeatLastsADay(r: Store, nick: string, id: string, elapsed: nat)
    ensures var r' := Later(RenewId(RenewName(r, nick), id), elapsed);
      && Owner(r', Lower(nick)) == (if elapsed < 86400 then Owner(r, Lower(nick)) else None)
      && Get(r'.now, r'.ids, id) == (if elapsed < 86400 then Get(r.now, r.ids, id) else None)
  {
  }

  /** The store and the claim after so many of its commands. */
  function RunClaim(r: Store, c: Claim, commands: nat): (Store, Phase)
    decreases commands
  {
    if commands == 0 then (r, c.phase)
    else
      var (r', phase) := AdvanceClaim(r, c);
      RunClaim(r', c.(phase := phase), commands - 1)
  }

  /** Uninterrupted, the commands of a claim decide it on the spot, and a granted one is as good as a registration. */
  lemma WholeClaim(r: Store, nick: string, id: string)
    ensures RunClaim(r, Claim(nick, id, STARTED), 4) ==
      (if ClaimGranted(r, nick, id) then Register(r, nick, id) else r, DONE(ClaimGranted(r, nick, id)))
  {
    var c := Claim(nick, id, STARTED);
    var (r1, phase1) := AdvanceClaim(r, c);
    var (r2, phase2) := AdvanceClaim(r1, c.(phase := phase1));
    var (r3, phase3) := AdvanceClaim(r2, c.(phase := phase2));
    var (r4, phase4) := AdvanceClaim(r3, c.(phase := phase3));
    assert RunClaim(r, c, 4) == RunClaim(r1, c.(phase := phase1), 3);
    assert RunClaim(r1, c.(phase := phase1), 3) == RunClaim(r2, c.(phase := phase2), 2);
    assert RunClaim(r2, c.(phase := phase2), 2) == RunClaim(r3, c.(phase := phase3), 1);
    assert RunClaim(r3, c.(phase := phase3), 1) == RunClaim(r4, c.(phase := phase4), 0);
  }

  // ---------- The services, run without interruption ----------

  class IdentityStore {
    var redis: Store
    var activeNames: set<string>

    constructor (now: int)
      ensures redis == Store(now, map[], map[]) && activeNames == {}
    {
      redis, activeNames := Store(now, map[], map[]), {};
    }

    /** Takes the nickname over for the id, whoever held it; a guest without an id gets a new one. */
    method RegisterUser(nick: string, userId: Option<string>, counter: GuestCounter) returns (id: string)
      modifies this, counter
      ensures var known := userId.Some? && userId.value != "";
        && id == (if known then userId.value else GuestId(old(counter.next) + 1))
        && counter.next == old(counter.next) + (if known then 0 else 1)
      ensures redis == Register(old(redis), nick, id)
      ensures activeNames == old(activeNames) + {Lower(nick)}
      ensures Owner(redis, Lower(nick)) == Some(id)
    {
      if userId.Some? && userId.value != "" {
        id := userId.value;
      } else {
        id := counter.CreateUserId();
      }
      activeNames := activeNames + {Lower(nick)};
      redis := PutId(redis, nick, id);
      redis := PutName(redis, nick, id);
    }

    method SetUnique(key: string, id: string) returns (claimed: bool)
      modifies `redis
      ensures claimed <==> Owner(old(redis), key).None?
      ensures redis == if claimed then old(redis).(names := Put(old(redis).now, old(redis).names, key, id)) else old(redis)
    {
      claimed := Owner(redis, key).None?;
      if claimed {
        redis := redis.(names := Put(redis.now, redis.names, key, id));
      }
    }

    /** Succeeds for the owner, or for anyone when the nickname is free; otherwise writes nothing. */
    method ClaimGuestIdentity(nick: string, id: string) returns (granted: bool)
      modifies `redis
      ensures granted <==> ClaimGranted(old(redis), nick, id)
      ensures granted <==> Owner(old(redis), Lower(nick)) == None || Owner(old(redis), Lower(nick)) == Some(id)
      ensures redis == if granted then Register(old(redis), nick, id) else old(redis)
    {
      var key := Lower(nick);
      var claimed := SetUnique(key, id);
      if !claimed && Owner(redis, key) != Some(id) {
        return false;
      }
      redis := PutId(redis, nick, id);
      if !claimed {
        redis := RenewName(redis, nick);
      }
      return true;
    }

    method RefreshGuestIdentity(nick: string, id: string)
      modifies `redis
      ensures redis == RenewId(RenewName(old(redis), nick), id)
      ensures forall name :: Owner(redis, name) == Owner(old(redis), name)
    {
      redis := RenewName(redis, nick);
      redis := RenewId(redis, id);
    }

    method RevokeGuestIdentity(nick: string, id: string)
      modifies `redis
      ensures redis == old(redis).(names := old(redis).names - {Lower(nick)},
                                   ids := if id == "" then old(redis).ids else old(redis).ids - {id})
      ensures Owner(redis, Lower(nick)) == None
    {
      redis := redis.(names := redis.names - {Lower(nick)});
      if id != "" {
        redis := redis.(ids := redis.ids - {id});
      }
    }
  }
}
