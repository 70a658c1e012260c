/**
 Loads of the bot cache that admin changes and other loads may interrupt
 (apps/chat/services/bots/bot_cache_loader.py, apps/chat/services/bots/bot_message_service.py,
 apps/users/admin.py). A bot tick that finds no loaded flag clears the cached bots, reads the database's, stores
 what it read, and sets the flag; every admin change of `is_bot` clears the flag once it has committed.
 */
module BotLoads {
  import opened Options
  import opened BotCache

  /** A load by the point it has reached: when it read, how many changes and how many clears there had been. */
  datatype Load =
    | CHECKED
    | CLEARED
    | READ(bots: map<nat, string>, at: nat, clears: nat)
    | STORED(at: nat, clears: nat, time: int)

  /** What one load stored: the bots as they were after `at` changes. */
  datatype Batch = Batch(at: nat, time: int)

  /** The load that set the flag, and how many clears there had been when it read and when it set the flag. */
  datatype Flagging = Flagging(batch: Batch, read: nat, flagged: nat)

  /**
   `versions` are the bot ids of the database, from the start and after each change of `is_bot`; `clears` counts
   the flag clears that have run; `shelf` is what has been stored since the last time the bots were cleared.
   */
  datatype State = State(
    now: int,
    db: Database,
    cache: Cache,
    versions: seq<set<nat>>,
    clears: nat,
    loads: map<nat, Load>,
    shelf: Option<seq<Batch>>,
    flagging: Option<Flagging>)

  /** Any earlier Redis contents without the flag will do as a start. */
  function Start(now: int, db: Database, cache: Cache): State {
    State(now, db, cache.(flagExpires := None), [Bots(db).Keys], 0, map[], None, None)
  }

  datatype Step =
    | Wait(elapsed: nat)
    | SetBots(ids: set<nat>, isBot: bool)  // the two admin actions
    | SaveUser(id: nat, user: User)        // the admin form
    | ClearFlag
    | Check(tick: nat)
    | Clear(tick: nat)
    | Read(tick: nat)
    | Store(tick: nat)
    | Flag(tick: nat)
    | Die(tick: nat)

  predicate ChangesIsBot(db: Database, id: nat, user: User) {
    user.isBot != (id in db && db[id].isBot)
  }

  function WithBots(db: Database, ids: set<nat>, isBot: bool): Database {
    map id | id in db :: if id in ids then db[id].(isBot := isBot) else db[id]
  }

  /** The changes committed so far; each owes one clear. */
  function Changes(s: State): int {
    |s.versions| - 1
  }

  function ChangeTo(s: State, db: Database): State {
    s.(db := db, versions := s.versions + [Bots(db).Keys])
  }

  predicate At(s: State, tick: nat, phase: Load) {
    tick in s.loads && s.loads[tick] == phase
  }

  function Enter(s: State, tick: nat, phase: Load): State {
    s.(loads := s.loads[tick := phase])
  }

  function DoStore(s: State, tick: nat): State
    requires tick in s.loads && s.loads[tick].READ?
  {
    var l := s.loads[tick];
    Enter(s, tick, STORED(l.at, l.clears, s.now))
    .(cache := AddUsers(s.cache, l.bots, s.now),
      shelf := if s.shelf.Some? then Some(s.shelf.value + [Batch(l.at, s.now)]) else None)
  }

  function DoFlag(s: State, tick: nat): State
    requires tick in s.loads && s.loads[tick].STORED?
  {
    var l := s.loads[tick];
    s.(loads := s.loads - {tick}, cache := SetFlag(s.cache, s.now),
       flagging := Some(Flagging(Batch(l.at, l.time), l.clears, s.clears)))
  }

  function Do(s: State, step: Step): State {
    match step
    case Wait(elapsed) => s.(now := s.now + elapsed)
    case SetBots(ids, isBot) => ChangeTo(s, WithBots(s.db, ids, isBot))
    case SaveUser(id, user) =>
      if ChangesIsBot(s.db, id, user) then ChangeTo(s, s.db[id := user]) else s.(db := s.db[id := user])
    case ClearFlag =>
      if s.clears < Changes(s) then s.(cache := s.cache.(flagExpires := None), clears := s.clears + 1) else s
    case Check(tick) => if tick in s.loads || Loaded(s.cache, s.now) then s else Enter(s, tick, CHECKED)
    case Clear(tick) =>
      if At(s, tick, CHECKED) then Enter(s, tick, CLEARED).(cache := ClearUsers(s.cache), shelf := Some([])) else s
    case Read(tick) =>
      if At(s, tick, CLEARED) && Changes(s) >= 0 then Enter(s, tick, READ(Bots(s.db), Changes(s), s.clears)) else s
    case Store(tick) => if tick in s.loads && s.loads[tick].READ? then DoStore(s, tick) else s
    case Flag(tick) => if tick in s.loads && s.loads[tick].STORED? then DoFlag(s, tick) else s
    case Die(tick) => s.(loads := s.loads - {tick})
  }

  function After(s: State, steps: seq<Step>): State {
    if steps == [] then s else Do(After(s, steps[..|steps| - 1]), steps[|steps| - 1])
  }

  // ---------- What every run keeps ----------

  ghost predicate VersionsOk(s: State) {
    && s.versions != [] && s.clears <= Changes(s)
    && s.versions[Changes(s)] == Bots(s.db).Keys
  }

  ghost predicate LoadOk(versions: seq<set<nat>>, clears: nat, l: Load) {
    match l
    case READ(bots, at, seen) => at < |versions| && bots.Keys == versions[at] && seen <= at && seen <= clears
    case STORED(at, seen, _) => at < |versions| && seen <= at && seen <= clears
    case _ => true
  }

  ghost predicate LoadsOk(s: State) {
    forall tick :: tick in s.loads ==> LoadOk(s.versions, s.clears, s.loads[tick])
  }

  /** The ids of all the batches together. */
  function Union(versions: seq<set<nat>>, shelf: seq<Batch>): set<nat> {
    set b, id | b in shelf && b.at < |versions| && id in versions[b.at] :: id
  }

  ghost predicate BatchesOk(versions: seq<set<nat>>, shelf: seq<Batch>) {
    forall b :: b in shelf ==> b.at < |versions|
  }

  /** The time of the last batch that stored any bots. */
  function LastStored(versions: seq<set<nat>>, shelf: seq<Batch>): Option<int> {
    if shelf == [] then None
    else
      var last := shelf[|shelf| - 1];
      if last.at < |versions| && versions[last.at] != {} then Some(last.time) else LastStored(versions, shelf[..|shelf| - 1])
  }

  /** The id sets hold what has been stored since they were cleared, and live on from the last batch. */
  ghost predicate Shows(c: Cache, versions: seq<set<nat>>, shelf: seq<Batch>) {
    && BatchesOk(versions, shelf)
    && c.botIds == Union(versions, shelf)
    && c.userIds <= c.botIds
    && c.usernames.Keys == c.userIds && (c.userIds != {} ==> c.usernamesExpire == c.userIdsExpire)
    && (shelf != [] && versions[shelf[|shelf| - 1].at] != {} ==>
          && versions[shelf[|shelf| - 1].at] <= c.userIds
          && c.userIdsExpire == shelf[|shelf| - 1].time + BOT_MESSAGE_CACHE_TTL)
    && Lasts(c, versions, shelf)
  }

  /**
   What is left of the batches in the expiring copies when the last one has been stored: it adds to the earlier
   ones if they have not expired by then, and replaces them otherwise.
   */
  function Left(versions: seq<set<nat>>, shelf: seq<Batch>): set<nat> {
    if shelf == [] then {}
    else
      var init, last := shelf[..|shelf| - 1], shelf[|shelf| - 1];
      if last.at >= |versions| || versions[last.at] == {} then Left(versions, init)
      else
        var before := LastStored(versions, init);
        versions[last.at] + if before.Some? && last.time < before.value + BOT_MESSAGE_CACHE_TTL then Left(versions, init) else {}
  }

  /** The expiring copies hold what is left, and expire from the last batch that had any bots. */
  ghost predicate Lasts(c: Cache, versions: seq<set<nat>>, shelf: seq<Batch>) {
    && c.userIds == Left(versions, shelf)
    && match LastStored(versions, shelf)
       case None => c.botIds == {} && c.userIds == {}
       case Some(time) => c.userIdsExpire == time + BOT_MESSAGE_CACHE_TTL
  }

  lemma {:induction false} LeftLater(versions: seq<set<nat>>, shelf: seq<Batch>, version: set<nat>)
    requires BatchesOk(versions, shelf)
    ensures Left(versions + [version], shelf) == Left(versions, shelf)
  {
    if shelf != [] {
      assert shelf[|shelf| - 1] in shelf;
      LeftLater(versions, shelf[..|shelf| - 1], version);
      LastStoredLater(versions, shelf[..|shelf| - 1], version);
    }
  }

  lemma {:induction false} LastStoredLater(versions: seq<set<nat>>, shelf: seq<Batch>, version: set<nat>)
    requires BatchesOk(versions, shelf)
    ensures LastStored(versions + [version], shelf) == LastStored(versions, shelf)
  {
    if shelf != [] {
      assert shelf[|shelf| - 1] in shelf;
      LastStoredLater(versions, shelf[..|shelf| - 1], version);
    }
  }

  lemma AddUsersLasts(c: Cache, versions: seq<set<nat>>, shelf: seq<Batch>, bots: map<nat, string>, at: nat, now: int)
    requires Lasts(c, versions, shelf) && at < |versions| && bots.Keys == versions[at]
    ensures Lasts(AddUsers(c, bots, now), versions, shelf + [Batch(at, now)])
  {
    assert (shelf + [Batch(at, now)])[..|shelf|] == shelf;
  }

  ghost predicate FlagOk(s: State) {
    s.cache.flagExpires.Some? ==>
      && s.flagging.Some?
      && s.flagging.value.batch.at < |s.versions|
      && s.flagging.value.read <= s.flagging.value.batch.at
      && s.flagging.value.flagged == s.clears
  }

  ghost predicate Inv(s: State) {
    VersionsOk(s) && LoadsOk(s) && FlagOk(s) && (s.shelf.Some? ==> Shows(s.cache, s.versions, s.shelf.value))
  }

  lemma UnionSnoc(versions: seq<set<nat>>, shelf: seq<Batch>, b: Batch)
    requires b.at < |versions|
    ensures Union(versions, shelf + [b]) == Union(versions, shelf) + versions[b.at]
  {
    assert (shelf + [b])[|shelf|] == b;
    assert forall x :: x in shelf + [b] <==> x in shelf || x == b;
  }

  /** A further version is of no concern to what has been stored. */
  lemma ShowsLater(c: Cache, versions: seq<set<nat>>, shelf: seq<Batch>, version: set<nat>)
    requires Shows(c, versions, shelf)
    ensures Shows(c, versions + [version], shelf)
  {
    LastStoredLater(versions, shelf, version);
    LeftLater(versions, shelf, version);
    forall b | b in shelf ensures b.at < |versions| && (versions + [version])[b.at] == versions[b.at] {
    }
    forall id ensures id in Union(versions + [version], shelf) <==> id in Union(versions, shelf) {
      if id in Union(versions + [version], shelf) {
        var b :| b in shelf && b.at < |versions + [version]| && id in (versions + [version])[b.at];
        assert id in versions[b.at];
      }
      if id in Union(versions, shelf) {
        var b :| b in shelf && b.at < |versions| && id in versions[b.at];
        assert id in (versions + [version])[b.at];
      }
    }
  }

  lemma ChangeKeeps(s: State, db: Database)
    requires Inv(s)
    ensures Inv(ChangeTo(s, db))
  {
    if s.shelf.Some? {
      ShowsLater(s.cache, s.versions, s.shelf.value, Bots(db).Keys);
    }
    forall tick | tick in s.loads ensures LoadOk(ChangeTo(s, db).versions, s.clears, s.loads[tick]) {
      assert LoadOk(s.versions, s.clears, s.loads[tick]);
    }
  }

  lemma ClearKeeps(s: State, tick: nat)
    requires Inv(s) && At(s, tick, CHECKED)
    ensures Inv(Do(s, Clear(tick)))
  {
    assert Union(s.versions, []) == {};
  }

  lemma StoreShows(c: Cache, versions: seq<set<nat>>, shelf: seq<Batch>, bots: map<nat, string>, at: nat, now: int)
    requires Shows(c, versions, shelf) && at < |versions| && bots.Keys == versions[at]
    ensures Shows(AddUsers(c, bots, now), versions, shelf + [Batch(at, now)])
  {
    UnionSnoc(versions, shelf, Batch(at, now));
    AddUsersLasts(c, versions, shelf, bots, at, now);
  }

  lemma StoreKeeps(s: State, tick: nat)
    requires Inv(s) && tick in s.loads && s.loads[tick].READ?
    ensures Inv(DoStore(s, tick))
  {
    var l := s.loads[tick];
    assert LoadOk(s.versions, s.clears, l);
    if s.shelf.Some? {
      StoreShows(s.cache, s.versions, s.shelf.value, l.bots, l.at, s.now);
    }
  }

  lemma FlagKeeps(s: State, tick: nat)
    requires Inv(s) && tick in s.loads && s.loads[tick].STORED?
    ensures Inv(DoFlag(s, tick))
  {
    assert LoadOk(s.versions, s.clears, s.loads[tick]);
  }

  lemma SaveKeeps(s: State, id: nat, user: User)
    requires Inv(s)
    ensures Inv(Do(s, SaveUser(id, user)))
  {
    if ChangesIsBot(s.db, id, user) {
      ChangeKeeps(s, s.db[id := user]);
    } else {
      assert Bots(s.db[id := user]).Keys == Bots(s.db).Keys;
    }
  }

  lemma {:induction false} StepKeeps(s: State, step: Step)
    requires Inv(s)
    ensures Inv(Do(s, step))
  {
    match step
    case SetBots(ids, isBot) => ChangeKeeps(s, WithBots(s.db, ids, isBot));
    case SaveUser(id, user) => SaveKeeps(s, id, user);
    case Clear(tick) => if At(s, tick, CHECKED) { ClearKeeps(s, tick); }
    case Store(tick) => if tick in s.loads && s.loads[tick].READ? { StoreKeeps(s, tick); }
    case Flag(tick) => if tick in s.loads && s.loads[tick].STORED? { FlagKeeps(s, tick); }
    case _ =>
  }

  lemma {:induction false} InvHolds(now: int, db: Database, cache: Cache, steps: seq<Step>)
    ensures Inv(After(Start(now, db, cache), steps))
  {
    if steps != [] {
      InvHolds(now, db, cache, steps[..|steps| - 1]);
      StepKeeps(After(Start(now, db, cache), steps[..|steps| - 1]), steps[|steps| - 1]);
    }
  }

  // ---------- Exactly when the cache matches ----------

  /** The cached bots of a batch stored at `time` have not expired, if there are any. */
  predicate Alive(s: State, batch: Batch) {
    Bots(s.db) != map[] ==> s.now < batch.time + BOT_MESSAGE_CACHE_TTL
  }

  /** What the cache holds is what this one load stored. */
  predicate Sole(s: State, batch: Batch) {
    s.shelf == Some([batch])
  }

  /** Every load that has stored since the last clearing read the bots as they are now. */
  ghost predicate AllCurrent(s: State, shelf: seq<Batch>) {
    forall b :: b in shelf ==> b.at < |s.versions| && s.versions[b.at] == Bots(s.db).Keys
  }

  lemma CurrentUnion(s: State, shelf: seq<Batch>)
    requires shelf != [] && AllCurrent(s, shelf)
    ensures Union(s.versions, shelf) == Bots(s.db).Keys
  {
    assert shelf[0] in shelf;
  }

  /** However loads overlap, the cache matches while all that was stored since the last clearing is current and alive. */
  lemma {:induction false} CurrentBatchesMatch(now: int, db: Database, cache: Cache, steps: seq<Step>)
    ensures var s := After(Start(now, db, cache), steps);
      IsCurrent(s) ==> Matches(s.cache, s.db, s.now)
  {
    InvHolds(now, db, cache, steps);
    var s := After(Start(now, db, cache), steps);
    if IsCurrent(s) {
      CurrentMatches(s);
    }
  }

  /** Something has been stored since the last clearing, all of it is current, and the last of it is alive. */
  ghost predicate IsCurrent(s: State) {
    && s.shelf.Some? && s.shelf.value != []
    && AllCurrent(s, s.shelf.value) && Alive(s, s.shelf.value[|s.shelf.value| - 1])
  }

  lemma CurrentMatches(s: State)
    requires Inv(s) && IsCurrent(s)
    ensures Matches(s.cache, s.db, s.now)
  {
    var shelf := s.shelf.value;
    CurrentUnion(s, shelf);
    assert shelf[|shelf| - 1] in shelf;
  }

  /** There are no bots, or the last that were stored have not expired. */
  predicate StillThere(s: State, shelf: seq<Batch>) {
    Bots(s.db) != map[] ==>
      var last := LastStored(s.versions, shelf); last.Some? && s.now < last.value + BOT_MESSAGE_CACHE_TTL
  }

  /**
   However loads and changes interleave, the cache matches exactly when the bots of now are both all that has been
   read by the loads that stored since the last clearing, and all that is left of it in the expiring copies, which
   are still there.
   */
  lemma {:induction false} CacheMatchesIff(now: int, db: Database, cache: Cache, steps: seq<Step>, shelf: seq<Batch>)
    requires After(Start(now, db, cache), steps).shelf == Some(shelf)
    ensures var s := After(Start(now, db, cache), steps);
      Matches(s.cache, s.db, s.now) <==>
        Union(s.versions, shelf) == Bots(s.db).Keys == Left(s.versions, shelf) && StillThere(s, shelf)
  {
    InvHolds(now, db, cache, steps);
    ShelfMatchesIff(After(Start(now, db, cache), steps), shelf);
  }

  lemma ShelfMatchesIff(s: State, shelf: seq<Batch>)
    requires Inv(s) && s.shelf == Some(shelf)
    ensures Matches(s.cache, s.db, s.now) <==>
      Union(s.versions, shelf) == Bots(s.db).Keys == Left(s.versions, shelf) && StillThere(s, shelf)
  {
    if Bots(s.db) != map[] {
      var id :| id in Bots(s.db);
      assert id in Bots(s.db).Keys;
    }
  }

  /** When one load stored all there is, that is whether the bots it read are the bots of now, and alive. */
  lemma SoleMatchesIff(s: State, batch: Batch)
    requires Inv(s) && Sole(s, batch)
    ensures batch.at < |s.versions|
    ensures Matches(s.cache, s.db, s.now) <==> s.versions[batch.at] == Bots(s.db).Keys && Alive(s, batch)
  {
    assert [batch][0] in [batch];
    UnionSnoc(s.versions, [], batch);
    assert [] + [batch] == [batch] && Union(s.versions, []) == {};
  }

  /** The load behind the flag stored all there is, and no clear ran between its read and its setting the flag. */
  predicate Undisturbed(s: State) {
    s.flagging.Some? && Sole(s, s.flagging.value.batch) && s.flagging.value.read == s.flagging.value.flagged
  }

  /**
   Over every interleaving, whenever the flag is live and no committed change still awaits its clear, the cached
   bots are the database's, provided that the load behind the flag was undisturbed and its bots are alive.
   */
  lemma {:induction false} CacheMatchesDatabase(now: int, db: Database, cache: Cache, steps: seq<Step>)
    ensures var s := After(Start(now, db, cache), steps);
      Loaded(s.cache, s.now) && s.clears == Changes(s) && Undisturbed(s) && Alive(s, s.flagging.value.batch) ==>
        Matches(s.cache, s.db, s.now)
  {
    InvHolds(now, db, cache, steps);
    var s := After(Start(now, db, cache), steps);
    if Loaded(s.cache, s.now) && s.clears == Changes(s) && Undisturbed(s) && Alive(s, s.flagging.value.batch) {
      FlagVouches(s);
    }
  }

  lemma FlagVouches(s: State)
    requires Inv(s) && Loaded(s.cache, s.now) && s.clears == Changes(s)
    requires Undisturbed(s) && Alive(s, s.flagging.value.batch)
    ensures Matches(s.cache, s.db, s.now)
  {
    SoleMatchesIff(s, s.flagging.value.batch);
  }

  // ---------- Loads that something interrupts ----------

  function Reading(s: State, tick: nat): State {
    Do(Do(Do(s, Check(tick)), Clear(tick)), Read(tick))
  }

  function Finishing(s: State, tick: nat): State {
    Do(Do(s, Store(tick)), Flag(tick))
  }

  /**
   An admin makes a bot, and the clear runs, while a load that has read the old bots is under way: they end up
   under a live flag that no clear is owed to.
   */
  lemma ChangeDuringLoadIsStale(now: int, db: Database, cache: Cache, id: nat)
    requires id in db && !db[id].isBot
    ensures var s := Finishing(Do(Do(Reading(Start(now, db, cache), 0), SetBots({id}, true)), ClearFlag), 0);
      Loaded(s.cache, s.now) && s.clears == Changes(s) && !Matches(s.cache, s.db, s.now)
  {
    ReadingReads(Start(now, db, cache), 0);
    var s := Reading(Start(now, db, cache), 0);
    var changed := Do(Do(s, SetBots({id}, true)), ClearFlag);
    FinishingStores(changed, 0);
    assert id in Bots(changed.db) && id !in Bots(db);
  }

  /** A load that begins now clears the cached bots and has the database's in hand. */
  lemma ReadingReads(s: State, tick: nat)
    requires tick !in s.loads && !Loaded(s.cache, s.now) && Changes(s) >= 0
    ensures Reading(s, tick) ==
      s.(loads := s.loads[tick := READ(Bots(s.db), Changes(s), s.clears)], cache := ClearUsers(s.cache), shelf := Some([]))
  {
    var s1 := Do(s, Check(tick));
    var s2 := Do(s1, Clear(tick));
    assert At(s1, tick, CHECKED) && At(s2, tick, CLEARED);
    assert s.loads[tick := CHECKED][tick := CLEARED] == s.loads[tick := CLEARED];
  }

  /** It stores what it has in hand, whatever has happened since, and sets the flag. */
  lemma FinishingStores(s: State, tick: nat)
    requires tick in s.loads && s.loads[tick].READ? && s.shelf == Some([])
    ensures var l, s' := s.loads[tick], Finishing(s, tick);
      && s'.cache == SetFlag(AddUsers(s.cache, l.bots, s.now), s.now)
      && s'.shelf == Some([Batch(l.at, s.now)])
      && s'.flagging == Some(Flagging(Batch(l.at, s.now), l.clears, s.clears))
      && s'.loads == s.loads - {tick}
      && s' == s.(loads := s'.loads, cache := s'.cache, shelf := s'.shelf, flagging := s'.flagging)
  {
    var stored := Do(s, Store(tick));
    assert [] + [Batch(s.loads[tick].at, s.now)] == [Batch(s.loads[tick].at, s.now)];
    assert stored.loads - {tick} == s.loads - {tick};
  }

  /** A load that clears while another one is about to set the flag leaves a live flag over no bots at all. */
  lemma OverlappingLoadsHideBots(now: int, db: Database, cache: Cache)
    requires Bots(db) != map[]
    ensures var stored := Do(Reading(Start(now, db, cache), 0), Store(0));
      var s := Do(Do(Do(stored, Check(1)), Clear(1)), Flag(0));
      && Loaded(s.cache, s.now) && s.clears == Changes(s)
      && s.cache.botIds == {} && !Matches(s.cache, s.db, s.now)
  {
    ReadingReads(Start(now, db, cache), 0);
    var stored := Do(Reading(Start(now, db, cache), 0), Store(0));
    ClearHides(stored, 1);
    FlagOverNothing(Do(Do(stored, Check(1)), Clear(1)), 0);
  }

  lemma ClearHides(s: State, tick: nat)
    requires tick !in s.loads && !Loaded(s.cache, s.now)
    ensures Do(Do(s, Check(tick)), Clear(tick)) ==
      s.(loads := s.loads[tick := CLEARED], cache := ClearUsers(s.cache), shelf := Some([]))
  {
    assert At(Do(s, Check(tick)), tick, CHECKED);
    assert s.loads[tick := CHECKED][tick := CLEARED] == s.loads[tick := CLEARED];
  }

  lemma FlagOverNothing(s: State, tick: nat)
    requires tick in s.loads && s.loads[tick].STORED? && s.cache.botIds == {} && Bots(s.db) != map[]
    ensures var s' := Do(s, Flag(tick));
      Loaded(s'.cache, s'.now) && s'.cache.botIds == {} && !Matches(s'.cache, s'.db, s'.now)
  {
    var id :| id in Bots(s.db);
    assert id in Bots(s.db).Keys;
  }

  /** An admin action flags exactly the chosen users, owes one clear, and leaves the cache for it. */
  lemma ChangeMeans(s: State, ids: set<nat>, isBot: bool, id: nat)
    requires s.clears <= Changes(s)
    ensures var changed := Do(s, SetBots(ids, isBot));
      && changed.db.Keys == s.db.Keys && changed.cache == s.cache && changed.clears == s.clears
      && Changes(changed) == Changes(s) + 1
      && (id in s.db ==> changed.db[id] == if id in ids then s.db[id].(isBot := isBot) else s.db[id])
    ensures s.clears < Changes(s) ==>
      Do(s, ClearFlag) == s.(cache := s.cache.(flagExpires := None), clears := s.clears + 1)
  {
  }

  /** Saving a user owes a clear exactly when it changes whether the user is a bot. */
  lemma SaveMeans(s: State, id: nat, user: User)
    ensures var saved := Do(s, SaveUser(id, user));
      && saved.db == s.db[id := user] && saved.cache == s.cache && saved.clears == s.clears
      && Changes(saved) == Changes(s) + if user.isBot == (id in s.db && s.db[id].isBot) then 0 else 1
  {
  }

  /** A live flag keeps ticks from loading; a tick that dies leaves what it has stored so far. */
  lemma TicksMean(s: State, tick: nat, elapsed: nat)
    ensures Loaded(s.cache, s.now) ==> Do(s, Check(tick)) == s
    ensures Do(s, Die(tick)) == s.(loads := s.loads - {tick})
    ensures Do(s, Wait(elapsed)) == s.(now := s.now + elapsed)
  {
  }

  lemma AfterSnoc(s: State, steps: seq<Step>, step: Step)
    ensures After(s, steps + [step]) == Do(After(s, steps), step) && After(s, []) == s
  {
    assert (steps + [step])[..|steps|] == steps;
  }

  lemma RunWholeSnoc(s: State, events: seq<Event>, step: Step)
    requires Outside(step)
    ensures RunWhole(s, events + [Other(step)]) == Do(RunWhole(s, events), step)
    ensures RunWhole(s, events + [BotTick]) == WholeTick(RunWhole(s, events)) && RunWhole(s, []) == s
  {
    assert (events + [Other(step)])[..|events|] == events && (events + [BotTick])[..|events|] == events;
  }

  // ---------- Loads that nothing interrupts ----------

  /** A bot tick from its check to the flag, with nothing in between. */
  function WholeTick(s: State): State {
    if Loaded(s.cache, s.now) then s else Finishing(Reading(s, 0), 0)
  }

  datatype Event = Other(step: Step) | BotTick

  /** What is not part of a load. */
  predicate Outside(step: Step) {
    step.Wait? || step.SetBots? || step.SaveUser? || step.ClearFlag?
  }

  function RunWhole(s: State, events: seq<Event>): State {
    if events == [] then s
    else
      var before := RunWhole(s, events[..|events| - 1]);
      match events[|events| - 1]
      case Other(step) => if Outside(step) then Do(before, step) else before
      case BotTick => WholeTick(before)
  }

  /** A whole tick leaves the cache that the loader leaves. */
  lemma WholeTickLoads(s: State)
    requires Inv(s) && s.loads == map[] && !Loaded(s.cache, s.now)
    ensures var s' := WholeTick(s);
      && s'.cache == LoadedFrom(s.cache, Bots(s.db), s.now) && s'.db == s.db && s'.now == s.now
      && s'.versions == s.versions && s'.clears == s.clears && s'.loads == map[]
      && s'.shelf == Some([Batch(Changes(s), s.now)])
      && s'.flagging == Some(Flagging(Batch(Changes(s), s.now), s.clears, s.clears))
  {
    ReadingReads(s, 0);
    FinishingStores(Reading(s, 0), 0);
    assert s.loads[0 := READ(Bots(s.db), Changes(s), s.clears)] - {0} == map[];
    assert SetFlag(AddUsers(ClearUsers(s.cache), Bots(s.db), s.now), s.now) == LoadedFrom(s.cache, Bots(s.db), s.now);
  }

  lemma WholeTickKeeps(s: State)
    requires Inv(s) && s.loads == map[]
    ensures Inv(WholeTick(s))
  {
    if !Loaded(s.cache, s.now) {
      var s1, s2 := Do(s, Check(0)), Do(Do(s, Check(0)), Clear(0));
      StepKeeps(s, Check(0));
      StepKeeps(s1, Clear(0));
      StepKeeps(s2, Read(0));
      StepKeeps(Reading(s, 0), Store(0));
      StepKeeps(Do(Reading(s, 0), Store(0)), Flag(0));
    }
  }

  /** A flag that is set vouches for bots that one undisturbed load stored and that live as long as it does. */
  ghost predicate Sound(s: State) {
    && s.loads == map[]
    && (s.cache.flagExpires.Some? ==>
          && Undisturbed(s)
          && s.cache.flagExpires == Some(s.flagging.value.batch.time + BOT_MESSAGE_CACHE_TTL))
  }

  lemma {:induction false} WholeLoadsAreSound(now: int, db: Database, cache: Cache, events: seq<Event>)
    ensures var s := RunWhole(Start(now, db, cache), events); Inv(s) && Sound(s)
  {
    if events != [] {
      var init, last := events[..|events| - 1], events[|events| - 1];
      WholeLoadsAreSound(now, db, cache, init);
      var before := RunWhole(Start(now, db, cache), init);
      if last.BotTick? {
        WholeTickKeeps(before);
        WholeTickIsSound(before);
      } else if Outside(last.step) {
        StepKeeps(before, last.step);
        OutsideKeepsSound(before, last.step);
      }
    }
  }

  lemma WholeTickIsSound(s: State)
    requires Inv(s) && Sound(s)
    ensures Sound(WholeTick(s))
  {
    if !Loaded(s.cache, s.now) {
      WholeTickLoads(s);
    }
  }

  lemma {:induction false} OutsideKeepsSound(s: State, step: Step)
    requires Sound(s) && Outside(step)
    ensures Sound(Do(s, step))
  {
  }

  /**
   When nothing interrupts a load, then whenever the flag is live and no committed change still awaits its clear,
   the cached bots are the database's.
   */
  lemma {:induction false} WholeLoadsMatch(now: int, db: Database, cache: Cache, events: seq<Event>)
    ensures var s := RunWhole(Start(now, db, cache), events);
      Loaded(s.cache, s.now) && s.clears == Changes(s) ==> Matches(s.cache, s.db, s.now)
  {
    WholeLoadsAreSound(now, db, cache, events);
    var s := RunWhole(Start(now, db, cache), events);
    if Loaded(s.cache, s.now) && s.clears == Changes(s) {
      FlagVouches(s);
    }
  }

  /** Clearing before the commit would not do even then: a tick in between caches the old bots under a fresh flag. */
  lemma ClearBeforeCommitIsStale(db: Database, cache: Cache, now: int, id: nat)
    requires id in db && !db[id].isBot
    ensures var reloaded := LoadedFrom(cache.(flagExpires := None), Bots(db), now);
      Loaded(reloaded, now) && !Matches(reloaded, db[id := db[id].(isBot := true)], now)
  {
    assert id in Bots(db[id := db[id].(isBot := true)]).Keys && id !in Bots(db).Keys;
  }
}
