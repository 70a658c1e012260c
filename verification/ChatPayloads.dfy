/**
 What a client's payload says once it is validated (apps/chat/websocket/validation.py). A field is `None`
 when it is missing or not a string.
 */
module ChatPayloads {
  import opened Options
  import opened ChatIds

  const MAX_CHAT_MESSAGE_LENGTH := 1000

  /** The characters that Python's `str.strip` removes. */
  predicate IsBlank(c: char) {
    var n := c as int;
    || 0x9 <= n <= 0xD || 0x1C <= n <= 0x20 || n == 0x85 || n == 0xA0 || n == 0x1680 || 0x2000 <= n <= 0x200A
    || n == 0x2028 || n == 0x2029 || n == 0x202F || n == 0x205F || n == 0x3000
  }

  ghost predicate AllBlank(s: string, from: nat, to: nat)
    requires to <= |s|
  {
    forall k :: from <= k < to ==> IsBlank(s[k])
  }

  function SkipBlanks(s: string, from: nat): (k: nat)
    requires from <= |s|
    ensures from <= k <= |s| && AllBlank(s, from, k)
    ensures k < |s| ==> !IsBlank(s[k])
    decreases |s| - from
  {
    if from < |s| && IsBlank(s[from]) then SkipBlanks(s, from + 1) else from
  }

  function SkipBlanksBack(s: string, from: nat, to: nat): (k: nat)
    requires from <= to <= |s|
    ensures from <= k <= to && AllBlank(s, k, to)
    ensures k > from ==> !IsBlank(s[k - 1])
  {
    if from < to && IsBlank(s[to - 1]) then SkipBlanksBack(s, from, to - 1) else to
  }

  /** The string without the blanks at its ends. */
  function Strip(s: string): string {
    var from := SkipBlanks(s, 0);
    s[from..SkipBlanksBack(s, from, |s|)]
  }

  /** Only blanks are cut off, and all that can be: what is left begins and ends with none. */
  lemma StripCutsBlanks(s: string) returns (from: nat, to: nat)
    ensures from <= to <= |s| && Strip(s) == s[from..to]
    ensures AllBlank(s, 0, from) && AllBlank(s, to, |s|)
    ensures from < to ==> !IsBlank(s[from]) && !IsBlank(s[to - 1])
  {
    from := SkipBlanks(s, 0);
    to := SkipBlanksBack(s, from, |s|);
  }

  /** The group a payload names, if it names one. */
  function NamedGroup(field: Option<string>): Option<string> {
    if field.None? || Strip(field.value) == "" then None else Some(Lower(Strip(field.value)))
  }

  /** A message is text, not blank, and not too long. */
  predicate IsMessage(field: Option<string>) {
    field.Some? && Strip(field.value) != "" && |field.value| <= MAX_CHAT_MESSAGE_LENGTH
  }

  /** The blanks are the characters that Python calls whitespace. */
  lemma BlanksAre(c: char)
    ensures IsBlank(c) <==>
      || c in [' ', '\t', '\n', '\r', '\U{0B}', '\U{0C}', '\U{1C}', '\U{1D}', '\U{1E}', '\U{1F}', '\U{85}', '\U{A0}']
      || c in ['\U{1680}', '\U{2000}', '\U{2001}', '\U{2002}', '\U{2003}', '\U{2004}', '\U{2005}', '\U{2006}']
      || c in ['\U{2007}', '\U{2008}', '\U{2009}', '\U{200A}', '\U{2028}', '\U{2029}', '\U{202F}', '\U{205F}', '\U{3000}']
  {
  }

  /** A payload names the lobby exactly when it spells it, in any case, between blanks. */
  lemma LobbyInEverySpelling(field: Option<string>)
    ensures NamedGroup(field) == Some(LOBBY) <==> field.Some? && SameSpelling(Strip(field.value), "chatea")
  {
    if field.Some? {
      LowerIdentifiesSpellings(Strip(field.value), "chatea");
      assert Lower("chatea") == "chatea";
    }
  }

  /** A payload names no group exactly when it has no text but blanks; what it names has no capitals. */
  lemma NamesNoGroup(field: Option<string>)
    ensures NamedGroup(field) == None <==> field.None? || AllBlank(field.value, 0, |field.value|)
    ensures NamedGroup(field).Some? ==>
      && SameSpelling(NamedGroup(field).value, Strip(field.value))
      && forall c :: c in NamedGroup(field).value ==> !('A' <= c <= 'Z')
  {
    if field.Some? {
      StripsToNothing(field.value);
      LowerSpells(Strip(field.value));
    }
  }

  lemma StripsToNothing(s: string)
    ensures Strip(s) == "" <==> AllBlank(s, 0, |s|)
  {
    var from, to := StripCutsBlanks(s);
    if from < to {
      assert Strip(s)[0] == s[from];
    }
  }

  /** A message is text of at most a thousand characters, one of which is not blank. */
  lemma MessageIs(field: Option<string>)
    ensures IsMessage(field) <==> field.Some? && |field.value| <= 1000 && !AllBlank(field.value, 0, |field.value|)
  {
    if field.Some? {
      StripsToNothing(field.value);
    }
  }
}
