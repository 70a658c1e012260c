/**
 Chat identities and the names of channel groups (apps/chat/websocket/group_names.py,
 apps/chat/infrastructure/redis/sync_redis_service.py). A user's id is the decimal database key, a guest's
 id is a padded base-36 counter; a private group is named after an ordered pair of ids.
 */
module ChatIds {
  import opened Numerals

  function GuestId(n: nat): string {
    "u_" + ZFill(Numeral(n, THIRTY_SIX), 5)
  }

  /** The ids this server hands out. */
  ghost predicate Issued(id: string) {
    exists n :: id == Decimal(n) || id == GuestId(n)
  }

  /** The shared counter from which guest ids are drawn. */
  class GuestCounter {
    var next: nat

    constructor ()
      ensures next == 0
    {
      next := 0;
    }

    method CreateUserId() returns (id: string)
      modifies this
      ensures next == old(next) + 1 && id == GuestId(next)
    {
      next := next + 1;
      var short := Numeral(next, THIRTY_SIX);
      id := "u_" + ZFill(short, 5);
    }
  }

  /** Distinct counter values give distinct guest ids, none of which is a user's decimal id. */
  lemma GuestIdsAreUnique(m: nat, n: nat)
    ensures GuestId(m) == GuestId(n) ==> m == n
    ensures GuestId(m) != Decimal(n)
  {
    if GuestId(m) == GuestId(n) {
      assert ZFill(Numeral(m, THIRTY_SIX), 5) == GuestId(m)[2..];
      assert ZFill(Numeral(n, THIRTY_SIX), 5) == GuestId(n)[2..];
      ZFillKeepsValue(Numeral(m, THIRTY_SIX), 5, THIRTY_SIX);
      ZFillKeepsValue(Numeral(n, THIRTY_SIX), 5, THIRTY_SIX);
      NumeralRoundTrip(m, THIRTY_SIX);
      NumeralRoundTrip(n, THIRTY_SIX);
    }
    assert GuestId(m)[1] == '_' && GuestId(m)[1] in GuestId(m);
  }

  // ---------- Group names ----------

  function LowerChar(c: char): char {
    if 'A' <= c <= 'Z' then (c as int + 32) as char else c
  }

  function Lower(s: string): string {
    seq(|s|, i requires 0 <= i < |s| => LowerChar(s[i]))
  }

  /** The same character, or the same letter in upper and in lower case. */
  predicate SameLetter(a: char, b: char) {
    || a == b
    || ('A' <= a <= 'Z' && b as int == a as int + 32)
    || ('A' <= b <= 'Z' && a as int == b as int + 32)
  }

  /** The strings differ at most in the case of their letters. */
  predicate SameSpelling(s: string, t: string) {
    |s| == |t| && forall i :: 0 <= i < |s| ==> SameLetter(s[i], t[i])
  }

  /** Lower-casing identifies exactly the strings that differ in case only. */
  lemma LowerIdentifiesSpellings(s: string, t: string)
    ensures Lower(s) == Lower(t) <==> SameSpelling(s, t)
  {
    if SameSpelling(s, t) {
      forall i | 0 <= i < |s| ensures Lower(s)[i] == Lower(t)[i] {
        assert SameLetter(s[i], t[i]);
      }
    }
    if Lower(s) == Lower(t) {
      forall i | 0 <= i < |s| ensures SameLetter(s[i], t[i]) {
        assert Lower(s)[i] == LowerChar(s[i]) && Lower(t)[i] == LowerChar(t[i]);
      }
    }
  }

  /** The lower-cased string spells the same, without capitals. */
  lemma LowerSpells(s: string)
    ensures SameSpelling(Lower(s), s) && forall c :: c in Lower(s) ==> !('A' <= c <= 'Z')
  {
  }

  function Hyphenate(s: string): string {
    seq(|s|, i requires 0 <= i < |s| => if s[i] == ' ' then '-' else s[i])
  }

  const PRIVATE := "private-"
  const LOBBY := "chatea"

  function PrivateGroup(user1: string, user2: string): string {
    Lower("private-" + Hyphenate(user1) + "-" + Hyphenate(user2))
  }

  /** The channel group on which one user receives notifications. */
  function Inbox(user: string): string {
    "chatconnect.user.inbox." + user
  }

  predicate IsPrivate(group: string) {
    PRIVATE <= group
  }

  /** The group belongs to the private chat of these two, whoever invited first. */
  predicate GroupOf(group: string, a: string, b: string) {
    group == PrivateGroup(a, b) || group == PrivateGroup(b, a)
  }

  predicate IsPlain(s: string) {
    forall i :: 0 <= i < |s| ==> s[i] == '_' || IsDigit(s[i])
  }

  lemma IssuedIsPlain(id: string)
    requires Issued(id)
    ensures IsPlain(id)
  {
    var n :| id == Decimal(n) || id == GuestId(n);
    if id == GuestId(n) {
      var padded := ZFill(Numeral(n, THIRTY_SIX), 5);
      assert forall i :: 0 <= i < |padded| ==> padded[i] in padded;
      assert id == "u_" + padded;
    } else {
      assert forall i :: 0 <= i < |id| ==> id[i] in id;
    }
  }

  lemma PlainIsUntouched(s: string)
    requires IsPlain(s)
    ensures Hyphenate(s) == s && Lower(s) == s && '-' !in s
  {
  }

  lemma LowerConcat(s: string, t: string)
    ensures Lower(s + t) == Lower(s) + Lower(t)
  {
  }

  /** The first half of a group name is the id of whoever it was made for, whatever the second half was. */
  lemma PrivateGroupStarts(a: string, other: string)
    requires Issued(a)
    ensures PrivateGroup(a, other) == "private-" + a + "-" + Lower(Hyphenate(other))
  {
    IssuedIsPlain(a);
    PlainIsUntouched(a);
    LowerConcat("private-" + a + "-", Hyphenate(other));
    LowerConcat("private-" + a, "-");
    LowerConcat("private-", a);
  }

  lemma NameFixesFirst(a: string, other: string, c: string, d: string)
    requires Issued(a) && Issued(c) && PrivateGroup(a, other) == PrivateGroup(c, d)
    ensures a == c
  {
    PrivateGroupStarts(a, other);
    PrivateGroupStarts(c, d);
    IssuedHasNoHyphen(a);
    IssuedHasNoHyphen(c);
    PlainNamesFixPair(a, Lower(Hyphenate(other)), c, Lower(Hyphenate(d)));
  }

  lemma PrivateGroupIsPlain(a: string, b: string)
    requires Issued(a) && Issued(b)
    ensures PrivateGroup(a, b) == "private-" + a + "-" + b
    ensures IsPrivate(PrivateGroup(a, b))
  {
    PrivateGroupStarts(a, b);
    IssuedIsPlain(b);
    PlainIsUntouched(b);
  }

  lemma DropPrefix(prefix: string, x: string, y: string)
    requires prefix + x == prefix + y
    ensures x == y
  {
    assert x == (prefix + x)[|prefix|..] && y == (prefix + y)[|prefix|..];
  }

  lemma PlainNamesFixPair(a: string, b: string, c: string, d: string)
    requires '-' !in a && '-' !in c
    requires "private-" + a + "-" + b == "private-" + c + "-" + d
    ensures a == c && b == d
  {
    var left, right := a + ['-'] + b, c + ['-'] + d;
    assert PRIVATE + left == "private-" + a + "-" + b && PRIVATE + right == "private-" + c + "-" + d;
    DropPrefix(PRIVATE, left, right);
    SplitsOnce(a, b, c, d, '-');
  }

  lemma IssuedHasNoHyphen(id: string)
    requires Issued(id)
    ensures '-' !in id
  {
    IssuedIsPlain(id);
    PlainIsUntouched(id);
  }

  /** Between issued ids a group name fixes the ordered pair it was made from. */
  lemma NameFixesPair(a: string, b: string, c: string, d: string)
    requires Issued(a) && Issued(b) && Issued(c) && Issued(d)
    requires PrivateGroup(a, b) == PrivateGroup(c, d)
    ensures a == c && b == d
  {
    PrivateGroupIsPlain(a, b);
    PrivateGroupIsPlain(c, d);
    IssuedHasNoHyphen(a);
    IssuedHasNoHyphen(c);
    PlainNamesFixPair(a, b, c, d);
  }

  /** Inbox groups are never private groups, and each belongs to one user. */
  lemma InboxesAreApart(a: string, b: string)
    ensures !IsPrivate(Inbox(a)) && Inbox(a) != LOBBY && !IsPrivate(LOBBY)
    ensures Inbox(a) == Inbox(b) ==> a == b
  {
    assert Inbox(a)[0] == 'c' && PRIVATE[0] == 'p' && LOBBY[0] == 'c';
    if Inbox(a) == Inbox(b) {
      DropPrefix("chatconnect.user.inbox.", a, b);
    }
  }

  /** A group name spells "private-", both names with their spaces as hyphens, and a hyphen between, without capitals. */
  lemma PrivateGroupSpells(user1: string, user2: string)
    ensures var g, m := PrivateGroup(user1, user2), 8 + |user1|;
      && |g| == m + 1 + |user2| && g[..8] == "private-" && g[m] == '-'
      && (forall i :: 0 <= i < |user1| ==> if user1[i] == ' ' then g[8 + i] == '-' else SameLetter(g[8 + i], user1[i]))
      && (forall i :: 0 <= i < |user2| ==>
            if user2[i] == ' ' then g[m + 1 + i] == '-' else SameLetter(g[m + 1 + i], user2[i]))
      && (forall c :: c in g ==> !('A' <= c <= 'Z'))
  {
    var plain := "private-" + Hyphenate(user1) + "-" + Hyphenate(user2);
    assert PrivateGroup(user1, user2) == Lower(plain);
    assert plain[..8] == "private-" && plain[8 + |user1|] == '-';
    assert plain[8..8 + |user1|] == Hyphenate(user1) && plain[9 + |user1|..9 + |user1| + |user2|] == Hyphenate(user2);
    PartSpells(plain, 8, user1);
    PartSpells(plain, 9 + |user1|, user2);
    LowerPrefix(plain);
    LowerSpells(plain);
  }

  lemma PartSpells(plain: string, offset: nat, user: string)
    requires offset + |user| <= |plain| && plain[offset..offset + |user|] == Hyphenate(user)
    ensures forall i :: 0 <= i < |user| ==>
      if user[i] == ' ' then Lower(plain)[offset + i] == '-' else SameLetter(Lower(plain)[offset + i], user[i])
  {
    forall i | 0 <= i < |user|
      ensures if user[i] == ' ' then Lower(plain)[offset + i] == '-' else SameLetter(Lower(plain)[offset + i], user[i])
    {
      assert plain[offset + i] == plain[offset..offset + |user|][i] == Hyphenate(user)[i];
    }
  }

  lemma LowerPrefix(plain: string)
    requires |plain| >= 8 && plain[..8] == "private-"
    ensures Lower(plain)[..8] == "private-"
  {
    assert forall i :: 0 <= i < 8 ==> plain[i] == plain[..8][i] && LowerChar("private-"[i]) == "private-"[i];
  }

  /** A guest id is "u_" and the number in base 36, padded with zeros to five digits. */
  lemma GuestIdShape(n: nat)
    ensures var digits := ZFill(Numeral(n, THIRTY_SIX), 5);
      && GuestId(n) == "u_" + digits && Value(digits, THIRTY_SIX) == n
      && |GuestId(n)| == 2 + if |Numeral(n, THIRTY_SIX)| < 5 then 5 else |Numeral(n, THIRTY_SIX)|
  {
    ZFillKeepsValue(Numeral(n, THIRTY_SIX), 5, THIRTY_SIX);
    NumeralRoundTrip(n, THIRTY_SIX);
    ZFillLength(Numeral(n, THIRTY_SIX), 5);
  }
}
