/**
 * Player names. The join handler trims the requested name the way
 * JavaScript's String.prototype.trim does: white space and line
 * terminators are removed from both ends.
 */
module Names {

  /** The code points String.prototype.trim removes: ECMAScript WhiteSpace and LineTerminator. */
  predicate IsTrimSpace(c: char) {
    || c == '\t' || c == '\n' || c == '\U{000B}' || c == '\U{000C}' || c == '\r' || c == ' '
    || c == '\U{00A0}' || c == '\U{1680}' || ('\U{2000}' <= c <= '\U{200A}')
    || c == '\U{2028}' || c == '\U{2029}' || c == '\U{202F}' || c == '\U{205F}'
    || c == '\U{3000}' || c == '\U{FEFF}'
  }

  /** `s` without its leading trim space. */
  function TrimStart(s: string): (r: string)
    ensures |r| <= |s|
    ensures r == [] || !IsTrimSpace(r[0])
  {
    if s != [] && IsTrimSpace(s[0]) then TrimStart(s[1..]) else s
  }

  /** `s` without its trailing trim space. */
  function TrimEnd(s: string): (r: string)
    ensures |r| <= |s|
    ensures r == [] || !IsTrimSpace(r[|r| - 1])
  {
    if s != [] && IsTrimSpace(s[|s| - 1]) then TrimEnd(s[..|s| - 1]) else s
  }

  /** TrimStart drops a prefix made of trim space only. */
  lemma {:induction false} TrimStartDropsSpace(s: string)
    ensures var r := TrimStart(s);
      r == s[|s| - |r|..] && forall i :: 0 <= i < |s| - |r| ==> IsTrimSpace(s[i])
    decreases |s|
  {
    if s != [] && IsTrimSpace(s[0]) {
      TrimStartDropsSpace(s[1..]);
    }
  }

  /** TrimEnd drops a suffix made of trim space only. */
  lemma {:induction false} TrimEndDropsSpace(s: string)
    ensures var r := TrimEnd(s);
      r == s[..|r|] && forall i :: |r| <= i < |s| ==> IsTrimSpace(s[i])
    decreases |s|
  {
    if s != [] && IsTrimSpace(s[|s| - 1]) {
      TrimEndDropsSpace(s[..|s| - 1]);
    }
  }

  /** `r` is `s[k..k + |r|]` and everything of `s` outside it is trim space. */
  predicate StripsTo(s: string, r: string, k: nat) {
    && k + |r| <= |s|
    && r == s[k..k + |r|]
    && (forall i :: 0 <= i < k ==> IsTrimSpace(s[i]))
    && (forall i :: k + |r| <= i < |s| ==> IsTrimSpace(s[i]))
  }

  /** `s` with the trim space removed at both ends: it neither starts nor ends with trim space. */
  function Trim(s: string): (r: string)
    ensures |r| <= |s|
    ensures r == [] || (!IsTrimSpace(r[0]) && !IsTrimSpace(r[|r| - 1]))
  {
    var t := TrimStart(s);
    TrimEndDropsSpace(t);
    TrimEnd(t)
  }

  /** Trimming removes only trim space, and only at the two ends: the result is a contiguous part of `s`. */
  lemma TrimRemovesOnlyEdges(s: string)
    ensures exists k :: StripsTo(s, Trim(s), k)
  {
    var t := TrimStart(s);
    var r := TrimEnd(t);
    TrimStartDropsSpace(s);
    TrimEndDropsSpace(t);
    var k := |s| - |t|;
    assert r == s[k..k + |r|] && forall i :: k + |r| <= i < |s| ==> s[i] == t[i - k];
    assert Trim(s) == r && StripsTo(s, r, k);
  }

  /** Trimming twice is trimming once. */
  lemma TrimIdempotent(s: string)
    ensures Trim(Trim(s)) == Trim(s)
  {
    // Trim(s) neither starts nor ends with trim space, so both passes leave it alone
  }

  /** A name the join handler can store: non-empty, with no trim space at either end. */
  predicate IsPlayerName(name: string) {
    name != "" && !IsTrimSpace(name[0]) && !IsTrimSpace(name[|name| - 1])
  }

  /** The storable names are exactly the non-empty strings that trimming leaves alone. */
  lemma PlayerNamesAreTrimmed(name: string)
    ensures IsPlayerName(name) <==> name != "" && Trim(name) == name
  {
    if IsPlayerName(name) {
      assert TrimStart(name) == name;
      assert TrimEnd(name) == name;
    }
  }
}
