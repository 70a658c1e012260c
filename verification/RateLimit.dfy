/**
 The message rate limit (apps/chat/services/actions/send_message.py): a counter per identity in a shared
 cache, created by the first message of a window and gone when the window's lifetime is over. Sockets of one
 identity share its key, and their commands interleave one by one.
 */
module RateLimit {
  const RATE_LIMIT := 8
  const WINDOW := 5000  // milliseconds

  datatype Counter = Counter(count: nat, expires: int)

  type Cache = map<string, Counter>

  /** A message first tries to create the counter, and increments it when that fails. */
  datatype Kind = ADD | INCR

  datatype Command = Command(key: string, time: int, kind: Kind)

  datatype Verdict =
    | MUST_INCREMENT   // the counter exists already
    | COUNTED(total: nat)
    | UNCOUNTED        // the counter expired between the two commands

  predicate Live(cache: Cache, key: string, now: int) {
    key in cache && now < cache[key].expires
  }

  function Execute(cache: Cache, c: Command): Cache {
    if !Live(cache, c.key, c.time) then
      if c.kind.ADD? then cache[c.key := Counter(1, c.time + WINDOW)] else cache
    else if c.kind.INCR? then cache[c.key := Counter(cache[c.key].count + 1, cache[c.key].expires)]
    else cache
  }

  function Answer(cache: Cache, c: Command): Verdict {
    if !Live(cache, c.key, c.time) then
      if c.kind.ADD? then COUNTED(1) else UNCOUNTED
    else if c.kind.INCR? then COUNTED(cache[c.key].count + 1)
    else MUST_INCREMENT
  }

  function Run(commands: seq<Command>): Cache {
    if commands == [] then map[] else Execute(Run(commands[..|commands| - 1]), commands[|commands| - 1])
  }

  function VerdictAt(commands: seq<Command>, i: nat): Verdict
    requires i < |commands|
  {
    Answer(Run(commands[..i]), commands[i])
  }

  /** Command `i` counted a message of the identity. */
  predicate Counts(commands: seq<Command>, i: nat, key: string)
    requires i < |commands|
  {
    commands[i].key == key && VerdictAt(commands, i).COUNTED?
  }

  /** ... and let it through. */
  predicate Passes(commands: seq<Command>, i: nat, key: string)
    requires i < |commands|
  {
    Counts(commands, i, key) && VerdictAt(commands, i).total <= RATE_LIMIT
  }

  function Min(a: nat, b: nat): nat {
    if a < b then a else b
  }

  // ---------- Inside one window ----------

  /** The command that opened the identity's latest window. */
  function OpenedBy(commands: seq<Command>, key: string): (opening: int)
    ensures -1 <= opening < |commands|
    ensures opening >= 0 ==> Counts(commands, opening, key) && commands[opening].kind.ADD?
    ensures forall k :: opening < k < |commands| ==> !(Counts(commands, k, key) && commands[k].kind.ADD?)
  {
    if commands == [] then -1
    else
      var n := |commands| - 1;
      assert forall k :: 0 <= k < n ==> commands[..n][..k] == commands[..k];
      assert forall k :: 0 <= k < n ==> Counts(commands[..n], k, key) == Counts(commands, k, key);
      if Counts(commands, n, key) && commands[n].kind.ADD? then n else OpenedBy(commands[..n], key)
  }

  function NumCounted(commands: seq<Command>, from: nat, key: string): nat {
    if |commands| <= from then 0
    else NumCounted(commands[..|commands| - 1], from, key) + if Counts(commands, |commands| - 1, key) then 1 else 0
  }

  function NumPassed(commands: seq<Command>, from: nat, key: string): nat {
    if |commands| <= from then 0
    else NumPassed(commands[..|commands| - 1], from, key) + if Passes(commands, |commands| - 1, key) then 1 else 0
  }

  /** Of the messages counted in a window exactly the first eight pass, whatever else is sent in between. */
  lemma {:induction false} EightPassPerWindow(commands: seq<Command>, key: string)
    requires OpenedBy(commands, key) >= 0
    ensures var opening, cache := OpenedBy(commands, key), Run(commands);
      var counted := NumCounted(commands, opening, key);
      && key in cache && cache[key] == Counter(counted, commands[opening].time + WINDOW)
      && NumPassed(commands, opening, key) == if counted < 8 then counted else 8
  {
    var n := |commands| - 1;
    var opening := OpenedBy(commands, key);
    assert commands[..n][..n] == commands[..n];
    if opening == n {
      assert NumCounted(commands[..n], n, key) == 0 && NumPassed(commands[..n], n, key) == 0;
    } else {
      EightPassPerWindow(commands[..n], key);
    }
  }

  // ---------- Over any stretch of time ----------

  predicate InOrder(commands: seq<Command>) {
    forall i, j :: 0 <= i < j < |commands| ==> commands[i].time <= commands[j].time
  }

  /** How many messages of the identity were counted and passed at or after `start` and before `end`. */
  function PassedBetween(commands: seq<Command>, key: string, start: int, end: int): nat {
    if commands == [] then 0
    else
      var n := |commands| - 1;
      PassedBetween(commands[..n], key, start, end)
      + if start <= commands[n].time < end && Passes(commands, n, key) then 1 else 0
  }

  /** The windows opened since `start`, each at least a window's length after the one before, with the current one's share. */
  ghost predicate WindowBudget(commands: seq<Command>, key: string, start: int, passed: nat) {
    var cache := Run(commands);
    if key !in cache then passed == 0
    else
      var share := Min(cache[key].count, RATE_LIMIT);
      var opening := cache[key].expires - WINDOW;
      passed <= if opening < start then share else RATE_LIMIT + RATE_LIMIT * ((opening - start) / WINDOW) + share
  }

  lemma {:induction false} BudgetHolds(commands: seq<Command>, key: string, start: int, end: int)
    requires InOrder(commands) && commands != [] && commands[|commands| - 1].time < end
    ensures commands[|commands| - 1].time < start ==> PassedBetween(commands, key, start, end) == 0
    ensures WindowBudget(commands, key, start, PassedBetween(commands, key, start, end))
  {
    var n := |commands| - 1;
    if n > 0 {
      assert commands[..n][n - 1].time <= commands[n].time;
      BudgetHolds(commands[..n], key, start, end);
    }
    BudgetStep(commands, key, start, end);
  }

  lemma BudgetStep(commands: seq<Command>, key: string, start: int, end: int)
    requires InOrder(commands) && commands != [] && commands[|commands| - 1].time < end
    requires var before := commands[..|commands| - 1];
      && (commands[|commands| - 1].time < start ==> PassedBetween(before, key, start, end) == 0)
      && WindowBudget(before, key, start, PassedBetween(before, key, start, end))
    ensures WindowBudget(commands, key, start, PassedBetween(commands, key, start, end))
  {
    var n := |commands| - 1;
    var cache, c := Run(commands[..n]), commands[n];
    if key == c.key && key in cache && !Live(cache, key, c.time) && c.kind.ADD? {
      var opening := cache[key].expires - WINDOW;
      assert c.time >= opening + WINDOW;
      assert (c.time - start) / WINDOW >= (opening - start) / WINDOW + 1;
    }
  }

  /** In any stretch of time at most eight messages pass per window's length begun, and eight more. */
  lemma {:induction false} RateIsBounded(commands: seq<Command>, key: string, start: int, length: nat)
    requires InOrder(commands)
    ensures PassedBetween(commands, key, start, start + length)
      <= 8 * ((length + 4999) / 5000 + 1)
  {
    if commands != [] {
      var n := |commands| - 1;
      if commands[n].time >= start + length {
        RateIsBounded(commands[..n], key, start, length);
      } else {
        BudgetHolds(commands, key, start, start + length);
        OpenedInOrder(commands, key);
        var cache := Run(commands);
        if key in cache && cache[key].expires - WINDOW >= start {
          var opening := cache[key].expires - WINDOW;
          assert opening - start <= length - 1;
          assert (opening - start) / WINDOW <= (length - 1) / WINDOW;
        }
      }
    }
  }

  lemma {:induction false} OpenedInOrder(commands: seq<Command>, key: string)
    requires InOrder(commands) && commands != []
    ensures key in Run(commands) ==> Run(commands)[key].expires - WINDOW <= commands[|commands| - 1].time
  {
    var n := |commands| - 1;
    if n > 0 {
      assert commands[..n][n - 1].time <= commands[n].time;
      OpenedInOrder(commands[..n], key);
    }
  }

  // ---------- The limiter as the handler calls it ----------

  function RateKey(id: string): string {
    "chat-message-rate:" + id
  }

  /** The cache after the commands of one message. */
  function Counted(cache: Cache, key: string, now: int, later: int): Cache {
    if Live(cache, key, now) then Execute(cache, Command(key, later, INCR)) else Execute(cache, Command(key, now, ADD))
  }

  /** The counter lives through both commands, and had reached the limit. */
  predicate Limited(cache: Cache, key: string, now: int, later: int) {
    Live(cache, key, now) && Live(cache, key, later) && cache[key].count >= RATE_LIMIT
  }

  /** Each identity has a counter of its own. */
  lemma RateKeysDiffer(a: string, b: string)
    ensures RateKey(a) == RateKey(b) <==> a == b
  {
    if RateKey(a) == RateKey(b) {
      assert a == RateKey(a)[18..] && b == RateKey(b)[18..];
    }
  }

  /** A message is refused exactly when its commands count it, as the ninth or later of its window. */
  lemma LimitedIffNinth(cache: Cache, key: string, now: int, later: int)
    ensures var add, incr := Command(key, now, ADD), Command(key, later, INCR);
      && (Limited(cache, key, now, later) <==>
            Answer(cache, add).MUST_INCREMENT? && Answer(Execute(cache, add), incr).COUNTED?
            && Answer(Execute(cache, add), incr).total > 8)
      && Counted(cache, key, now, later) ==
           (if Answer(cache, add).MUST_INCREMENT? then Execute(Execute(cache, add), incr) else Execute(cache, add))
  {
  }

  /** A counter opens with its first message and is gone five seconds later, whatever is counted meanwhile. */
  lemma WindowLastsFiveSeconds(cache: Cache, key: string, now: int, elapsed: nat)
    requires !Live(cache, key, now)
    ensures var started := Execute(cache, Command(key, now, ADD));
      && started[key].count == 1 && Answer(cache, Command(key, now, ADD)) == COUNTED(1)
      && (Live(started, key, now + elapsed) <==> elapsed < 5000)
      && (elapsed < 5000 ==>
            var counted := Execute(started, Command(key, now + elapsed, INCR));
            counted[key] == Counter(2, started[key].expires)
            && Answer(started, Command(key, now + elapsed, INCR)) == COUNTED(2))
  {
  }

  class MessageLimiter {
    var cache: Cache

    constructor ()
      ensures cache == map[]
    {
      cache := map[];
    }

    /**
     Counts one message and returns the new total. The ADD runs at `now` and, if needed, the INCR at `later`;
     a message whose counter expired in between reports one and is not counted.
     */
    method CountMessageInWindow(key: string, now: int, later: int) returns (total: nat)
      modifies this
      ensures var add, incr := Command(key, now, ADD), Command(key, later, INCR);
        if Answer(old(cache), add).COUNTED? then
          cache == Execute(old(cache), add) && total == Answer(old(cache), add).total
        else
          && cache == Execute(Execute(old(cache), add), incr)
          && total == (match Answer(old(cache), incr) case COUNTED(n) => n case _ => 1)
    {
      if !Live(cache, key, now) {
        cache := cache[key := Counter(1, now + WINDOW)];
        return 1;
      }
      if !Live(cache, key, later) {
        return 1;
      }
      cache := cache[key := Counter(cache[key].count + 1, cache[key].expires)];
      return cache[key].count;
    }

    method IsRateLimited(key: string, now: int, later: int) returns (limited: bool)
      modifies this
      ensures cache == Counted(old(cache), key, now, later)
      ensures limited <==> Limited(old(cache), key, now, later)
    {
      var total := CountMessageInWindow(key, now, later);
      limited := total > RATE_LIMIT;
    }
  }
}
