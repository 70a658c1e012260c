/**
 The bot cache (apps/chat/services/bots/, apps/chat/infrastructure/redis/bot_message_redis_store.py,
 apps/users/admin.py): Redis copies of the database's bots, rebuilt by a bot tick whenever the loaded flag
 is missing, and a flag that every admin change of `is_bot` clears, but only after its commit.
 */
module BotCache {
  import opened Options
  import BotFeed

  const BOT_MESSAGE_CACHE_TTL := 604800

  datatype User = User(username: string, isBot: bool)

  type Database = map<nat, User>

  /** The users flagged as bots, with their usernames. */
  function Bots(db: Database): map<nat, string> {
    map id | id in db && db[id].isBot :: db[id].username
  }

  /** `expires` is the moment from which a key is gone; the plain id set never expires. */
  datatype Cache = Cache(
    userIds: set<nat>, userIdsExpire: int,
    usernames: map<nat, string>, usernamesExpire: int,
    botIds: set<nat>,
    flagExpires: Option<int>)

  predicate Loaded(c: Cache, now: int) {
    c.flagExpires.Some? && now < c.flagExpires.value
  }

  function LiveUserIds(c: Cache, now: int): set<nat> {
    if now < c.userIdsExpire then c.userIds else {}
  }

  function LiveUsernames(c: Cache, now: int): map<nat, string> {
    if now < c.usernamesExpire then c.usernames else map[]
  }

  function ClearUsers(c: Cache): Cache {
    c.(userIds := {}, usernames := map[], botIds := {})
  }

  /** Adds bots to what is still live; with none, nothing is stored and nothing renewed. */
  function AddUsers(c: Cache, bots: map<nat, string>, now: int): Cache {
    var end := now + BOT_MESSAGE_CACHE_TTL;
    var added := c.(botIds := c.botIds + bots.Keys);
    if bots == map[] then added
    else added.(userIds := LiveUserIds(c, now) + bots.Keys, userIdsExpire := end,
                usernames := LiveUsernames(c, now) + bots, usernamesExpire := end)
  }

  function SetFlag(c: Cache, now: int): Cache {
    c.(flagExpires := Some(now + BOT_MESSAGE_CACHE_TTL))
  }

  /** The cache a load leaves, whatever was there before; with no bots nothing is stored, and nothing renewed. */
  function LoadedFrom(c: Cache, bots: map<nat, string>, now: int): Cache {
    var end := now + BOT_MESSAGE_CACHE_TTL;
    Cache(bots.Keys, if bots == map[] then c.userIdsExpire else end,
          bots, if bots == map[] then c.usernamesExpire else end,
          bots.Keys, Some(end))
  }

  /** Both id sets and the fields of the username hash are exactly the bots of the database. */
  predicate Matches(c: Cache, db: Database, now: int) {
    && LiveUserIds(c, now) == Bots(db).Keys
    && LiveUsernames(c, now).Keys == Bots(db).Keys
    && c.botIds == Bots(db).Keys
  }

  /** Each user is in all three copies exactly when it is flagged as a bot. */
  lemma MatchesMeans(c: Cache, db: Database, now: int)
    ensures Matches(c, db, now) <==> forall id ::
      (id in LiveUserIds(c, now) <==> id in db && db[id].isBot)
      && (id in LiveUsernames(c, now) <==> id in db && db[id].isBot)
      && (id in c.botIds <==> id in db && db[id].isBot)
  {
    if Matches(c, db, now) {
      forall id ensures id in Bots(db).Keys <==> id in db && db[id].isBot {
      }
      forall id ensures id in LiveUsernames(c, now) <==> id in LiveUsernames(c, now).Keys {
      }
    }
  }

  /** The topics of the database, each with its messages that are not promotional. */
  type Catalog = map<nat, map<nat, string>>

  /** The cached messages of one topic. */
  datatype Shelf = Shelf(texts: map<nat, string>, expires: int)

  datatype Topics = Topics(ids: set<nat>, expires: int, shelves: map<nat, Shelf>)

  function LiveIds(t: Topics, now: int): set<nat> {
    if now < t.expires then t.ids else {}
  }

  function LiveTexts(t: Topics, topic: nat, now: int): map<nat, string> {
    if topic in t.shelves && now < t.shelves[topic].expires then t.shelves[topic].texts else map[]
  }

  /** Topics and messages are gone at the moment they expire, and there until then. */
  lemma TopicsExpire(t: Topics, topic: nat, now: int)
    ensures LiveIds(t, now) == if now < t.expires then t.ids else {}
    ensures topic in t.shelves && now == t.shelves[topic].expires ==> LiveTexts(t, topic, now) == map[]
    ensures topic in t.shelves && now < t.shelves[topic].expires ==> LiveTexts(t, topic, now) == t.shelves[topic].texts
  {
  }

  /** The messages of a topic once those of the catalog are added to what is still live. */
  function Refilled(before: Topics, catalog: Catalog, topic: nat, now: int): map<nat, string> {
    LiveTexts(before, topic, now) + if topic in catalog then catalog[topic] else map[]
  }

  // ---------- The store and the loader ----------

  const MAX_TOPIC_ATTEMPTS := 10

  datatype BotMessage = BotMessage(sender: nat, username: string, id: nat)

  class BotMessageStore {
    var cache: Cache
    var topics: Topics
    var sentUntil: BotFeed.Marks

    constructor (cache: Cache, topics: Topics)
      ensures this.cache == cache && this.topics == topics && sentUntil == map[]
    {
      this.cache, this.topics, sentUntil := cache, topics, map[];
    }

    method ClearBotUsers()
      modifies `cache
      ensures cache == ClearUsers(old(cache))
    {
      cache := cache.(userIds := {}, usernames := map[], botIds := {});
    }

    method RegisterBotUser(id: nat)
      modifies `cache
      ensures cache == old(cache).(botIds := old(cache).botIds + {id})
    {
      cache := cache.(botIds := cache.botIds + {id});
    }

    method StoreBotUsers(users: map<nat, string>, now: int)
      modifies `cache
      ensures cache == if users == map[] then old(cache)
        else old(cache).(userIds := LiveUserIds(old(cache), now) + users.Keys, userIdsExpire := now + BOT_MESSAGE_CACHE_TTL,
                         usernames := LiveUsernames(old(cache), now) + users, usernamesExpire := now + BOT_MESSAGE_CACHE_TTL)
    {
      if users == map[] {
        return;
      }
      cache := cache.(userIds := LiveUserIds(cache, now) + users.Keys, usernames := LiveUsernames(cache, now) + users);
      cache := cache.(userIdsExpire := now + BOT_MESSAGE_CACHE_TTL, usernamesExpire := now + BOT_MESSAGE_CACHE_TTL);
    }

    method LoadBotUsers(db: Database, now: int)
      modifies `cache
      ensures cache == LoadedFrom(old(cache), Bots(db), now).(flagExpires := old(cache).flagExpires)
    {
      ClearBotUsers();
      var users := Bots(db);
      var pending := users.Keys;
      while pending != {}
        invariant pending <= users.Keys
        invariant cache == old(cache).(userIds := {}, usernames := map[], botIds := users.Keys - pending)
      {
        var id :| id in pending;
        pending := pending - {id};
        RegisterBotUser(id);
        assert users.Keys - pending == (users.Keys - pending - {id}) + {id};
      }
      StoreBotUsers(users, now);
    }

    method StoreTopicIds(ids: set<nat>, now: int)
      modifies `topics
      ensures LiveIds(topics, now) == LiveIds(old(topics), now) + ids
      ensures topics.shelves == old(topics).shelves
    {
      if ids == {} {
        return;
      }
      topics := topics.(ids := LiveIds(topics, now) + ids, expires := now + BOT_MESSAGE_CACHE_TTL);
    }

    method StoreTopicMessages(topic: nat, texts: map<nat, string>, now: int)
      modifies `topics
      ensures topics.ids == old(topics).ids && topics.expires == old(topics).expires
      ensures LiveTexts(topics, topic, now) == LiveTexts(old(topics), topic, now) + texts
      ensures forall other :: other != topic ==> LiveTexts(topics, other, now) == LiveTexts(old(topics), other, now)
    {
      if texts == map[] {
        return;
      }
      topics := topics.(shelves := topics.shelves[topic :=
        Shelf(LiveTexts(topics, topic, now) + texts, now + BOT_MESSAGE_CACHE_TTL)]);
    }

    /** Adds the topics and messages of the catalog to what is still live; nothing live is dropped. */
    method LoadTopicsAndMessages(catalog: Catalog, now: int)
      modifies `topics
      ensures LiveIds(topics, now) == LiveIds(old(topics), now) + catalog.Keys
      ensures forall topic :: LiveTexts(topics, topic, now) == Refilled(old(topics), catalog, topic, now)
    {
      StoreTopicIds(catalog.Keys, now);
      ghost var ids := LiveIds(topics, now);
      var pending := catalog.Keys;
      while pending != {}
        invariant pending <= catalog.Keys && LiveIds(topics, now) == ids
        invariant forall topic ::
          LiveTexts(topics, topic, now) == Refilled(old(topics), catalog - pending, topic, now)
      {
        var topic :| topic in pending;
        pending := pending - {topic};
        if catalog[topic] != map[] {
          StoreTopicMessages(topic, catalog[topic], now);
        }
      }
    }

    /**
     Loads the bots, the topics and their messages and sets the flag: from any earlier contents the cached bots
     then match the database, and every topic of the catalog is there with all its messages.
     */
    method Load(db: Database, catalog: Catalog, now: int)
      modifies `cache, `topics
      ensures Matches(cache, db, now) && Loaded(cache, now)
      ensures LiveUsernames(cache, now) == Bots(db)
      ensures cache == LoadedFrom(old(cache), Bots(db), now)
      ensures LiveIds(topics, now) == LiveIds(old(topics), now) + catalog.Keys
      ensures forall topic :: LiveTexts(topics, topic, now) == Refilled(old(topics), catalog, topic, now)
      ensures cache.flagExpires == Some(now + 604800)
      ensures forall id :: id in LiveUserIds(cache, now) <==> id in db && db[id].isBot
      ensures forall id :: id in cache.botIds <==> id in db && db[id].isBot
      ensures forall id :: id in LiveUsernames(cache, now) <==> id in db && db[id].isBot
      ensures forall id :: id in LiveUsernames(cache, now) ==> LiveUsernames(cache, now)[id] == db[id].username
      ensures forall topic, m :: topic in catalog && m in catalog[topic] ==>
        m in LiveTexts(topics, topic, now) && LiveTexts(topics, topic, now)[m] == catalog[topic][m]
      ensures forall topic, m :: m in LiveTexts(topics, topic, now) && !(topic in catalog && m in catalog[topic]) ==>
        m in LiveTexts(old(topics), topic, now) && LiveTexts(topics, topic, now)[m] == LiveTexts(old(topics), topic, now)[m]
    {
      LoadBotUsers(db, now);
      LoadTopicsAndMessages(catalog, now);
      cache := cache.(flagExpires := Some(now + BOT_MESSAGE_CACHE_TTL));
    }

    method EnsureCacheIsLoaded(db: Database, catalog: Catalog, now: int)
      modifies `cache, `topics
      ensures Loaded(cache, now)
      ensures if Loaded(old(cache), now) then cache == old(cache) && topics == old(topics)
              else Matches(cache, db, now) && LiveUsernames(cache, now) == Bots(db) && catalog.Keys <= LiveIds(topics, now)
    {
      if Loaded(cache, now) {
        return;
      }
      Load(db, catalog, now);
    }

    predicate WasSent(message: nat, now: int)
      reads this
    {
      BotFeed.Marked(sentUntil, message, now)
    }

    /** The first message of the shuffled list that no bot has sent recently; none only when all were. */
    method SelectUnsentMessage(shuffled: seq<nat>, now: int) returns (chosen: Option<nat>)
      ensures chosen.Some? ==> chosen.value in shuffled && !WasSent(chosen.value, now)
      ensures chosen.None? <==> Exhausted(shuffled, now)
    {
      for i := 0 to |shuffled|
        invariant forall k :: 0 <= k < i ==> WasSent(shuffled[k], now)
      {
        if !WasSent(shuffled[i], now) {
          return Some(shuffled[i]);
        }
      }
      return None;
    }

    ghost predicate Exhausted(messages: seq<nat>, now: int)
      reads this
    {
      forall m :: m in messages ==> WasSent(m, now)
    }

    /** The first `k` topics drawn have nothing to offer. */
    ghost predicate AllExhausted(draws: seq<Option<seq<nat>>>, k: nat, now: int)
      reads this
      requires k <= |draws|
    {
      forall j :: 0 <= j < k ==> draws[j].Some? && Exhausted(draws[j].value, now)
    }

    /**
     `draws` holds, for each attempt, the shuffled messages of the topic drawn then, or `None` when Redis has
     no topics. The message comes from the first topic drawn that still has one to offer.
     */
    method SelectMessage(draws: seq<Option<seq<nat>>>, now: int) returns (chosen: Option<nat>)
      requires |draws| == MAX_TOPIC_ATTEMPTS
      ensures chosen.Some? ==> !WasSent(chosen.value, now)
      ensures chosen.Some? ==>
        exists k :: 0 <= k < |draws| && AllExhausted(draws, k, now) && draws[k].Some? && chosen.value in draws[k].value
      ensures chosen.None? && !AllExhausted(draws, |draws|, now) ==>
        exists k :: 0 <= k < |draws| && AllExhausted(draws, k, now) && draws[k].None?
    {
      for i := 0 to |draws|
        invariant AllExhausted(draws, i, now)
      {
        if draws[i].None? {
          return None;
        }
        chosen := SelectUnsentMessage(draws[i].value, now);
        if chosen.Some? {
          return;
        }
      }
      return None;
    }

    method MarkMessageAsSent(message: nat, now: int)
      modifies `sentUntil
      ensures sentUntil == BotFeed.Mark(old(sentUntil), message, now)
    {
      sentUntil := sentUntil[message := now + BotFeed.BOT_MESSAGE_SENT_TTL];
    }

    /**
     One bot tick. When the cache, if loaded, matches the database, the message goes out under a bot of the
     database, and it is one that no bot has sent within the hour.
     */
    method GetMessageToSend(db: Database, catalog: Catalog, draws: seq<Option<seq<nat>>>, now: int) returns (message: Option<BotMessage>)
      requires |draws| == MAX_TOPIC_ATTEMPTS
      modifies this
      ensures Loaded(cache, now) && (Loaded(old(cache), now) ==> cache == old(cache))
      ensures sentUntil == if message.None? then old(sentUntil)
                           else BotFeed.Mark(old(sentUntil), message.value.id, now)
      ensures message.Some? ==> !old(WasSent(message.value.id, now))
      ensures message.Some? ==> exists draw :: draw in draws && draw.Some? && message.value.id in draw.value
      ensures message.Some? ==>
        && message.value.username != "" && message.value.sender in LiveUsernames(cache, now)
        && message.value.username == LiveUsernames(cache, now)[message.value.sender]
        && message.value.sender in LiveUserIds(cache, now)
      ensures message.Some? && !Loaded(old(cache), now) ==>
        message.value.sender in db && db[message.value.sender].isBot && message.value.username == db[message.value.sender].username
      ensures message.Some? ==>
        message.value.id in sentUntil && sentUntil[message.value.id] == now + 3600
      ensures message.Some? && (Loaded(old(cache), now) ==> Matches(old(cache), db, now)) ==>
        message.value.sender in Bots(db)
    {
      EnsureCacheIsLoaded(db, catalog, now);
      var ids, usernames := LiveUserIds(cache, now), LiveUsernames(cache, now);
      if ids == {} {
        return None;
      }
      var sender :| sender in ids;
      if sender !in usernames || usernames[sender] == "" {
        return None;
      }
      var chosen := SelectMessage(draws, now);
      if chosen.None? {
        return None;
      }
      MarkMessageAsSent(chosen.value, now);
      return Some(BotMessage(sender, usernames[sender], chosen.value));
    }
  }
}
