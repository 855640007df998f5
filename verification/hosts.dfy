/**
 * Host normalisation: the `prependHttp` helper that turns a user-supplied
 * host into a fully qualified base URL.
 */
module Hosts {
  import opened Js

  /** The characters `String.prototype.trim` removes: ECMAScript WhiteSpace
      and LineTerminator code points. */
  predicate IsWhitespace(c: char) {
    || c == ' ' || c == '\t' || c == '\n' || c == '\r' || c == '\U{B}' || c == '\U{C}'
    || c == '\U{A0}' || c == '\U{1680}' || '\U{2000}' <= c <= '\U{200A}'
    || c == '\U{2028}' || c == '\U{2029}' || c == '\U{202F}' || c == '\U{205F}'
    || c == '\U{3000}' || c == '\U{FEFF}'
  }

  predicate AllWhitespace(s: string) {
    forall i :: 0 <= i < |s| ==> IsWhitespace(s[i])
  }

  /** Neither end of `s` is whitespace. */
  predicate IsTrimmed(s: string) {
    s == [] || (!IsWhitespace(s[0]) && !IsWhitespace(s[|s| - 1]))
  }

  /** The number of whitespace characters at the start of `s`. */
  function LeadingSpace(s: string): (n: nat)
    ensures n <= |s|
    ensures forall k :: 0 <= k < n ==> IsWhitespace(s[k])
    ensures n < |s| ==> !IsWhitespace(s[n])
  {
    if s != [] && IsWhitespace(s[0]) then 1 + LeadingSpace(s[1..]) else 0
  }

  /** The number of whitespace characters at the end of `s`. */
  function TrailingSpace(s: string): (n: nat)
    ensures n <= |s|
    ensures forall k :: |s| - n <= k < |s| ==> IsWhitespace(s[k])
    ensures n < |s| ==> !IsWhitespace(s[|s| - 1 - n])
  {
    if s != [] && IsWhitespace(s[|s| - 1]) then 1 + TrailingSpace(s[..|s| - 1]) else 0
  }

  /** `s.trim()`: the middle of `s` once the whitespace at both ends is cut
      off, itself with no whitespace at either end. */
  function Trim(s: string): (r: string)
    ensures IsTrimmed(r)
    ensures var i := LeadingSpace(s);
      && i + |r| <= |s|
      && r == s[i..i + |r|]
      && AllWhitespace(s[..i])
      && AllWhitespace(s[i + |r|..])
  {
    var i := LeadingSpace(s);
    var j := TrailingSpace(s[i..]);
    s[i..|s| - j]
  }

  /** Trimming changes nothing in a string with no whitespace at either end;
      in particular trimming twice is trimming once. */
  lemma TrimTrimmed(s: string)
    requires IsTrimmed(s)
    ensures Trim(s) == s
  {
  }

  /** `/^\.*\//`: zero or more dots, then a slash. */
  predicate StartsRelative(s: string) {
    |s| > 0 && (s[0] == '/' || (s[0] == '.' && StartsRelative(s[1..])))
  }

  /** The regular expression read literally: some position `k` holds a slash
      and every character before it is a dot. */
  predicate DotsThenSlashAt(s: string, k: nat) {
    k < |s| && s[k] == '/' && forall i :: 0 <= i < k ==> s[i] == '.'
  }

  lemma {:induction false} StartsRelativeHasWitness(s: string)
    requires StartsRelative(s)
    ensures exists k: nat :: DotsThenSlashAt(s, k)
  {
    if s[0] != '/' {
      StartsRelativeHasWitness(s[1..]);
      var k: nat :| DotsThenSlashAt(s[1..], k);
      assert DotsThenSlashAt(s, k + 1);
    } else {
      assert DotsThenSlashAt(s, 0);
    }
  }

  lemma {:induction false} WitnessStartsRelative(s: string, k: nat)
    requires DotsThenSlashAt(s, k)
    ensures StartsRelative(s)
  {
    if k > 0 {
      assert s[0] == '.';
      assert DotsThenSlashAt(s[1..], k - 1);
      WitnessStartsRelative(s[1..], k - 1);
    }
  }

  /** The recursive reading of `/^\.*\//` agrees with the literal one. */
  lemma StartsRelativeMeans(s: string)
    ensures StartsRelative(s) <==> exists k: nat :: DotsThenSlashAt(s, k)
  {
    if StartsRelative(s) {
      StartsRelativeHasWitness(s);
    }
    if exists k: nat :: DotsThenSlashAt(s, k) {
      var k: nat :| DotsThenSlashAt(s, k);
      WitnessStartsRelative(s, k);
    }
  }

  /** `\w`: an ASCII letter, digit or underscore. */
  predicate IsWordChar(c: char) {
    ('a' <= c <= 'z') || ('A' <= c <= 'Z') || ('0' <= c <= '9') || c == '_'
  }

  predicate AllWord(s: string) {
    forall i :: 0 <= i < |s| ==> IsWordChar(s[i])
  }

  /** The length of the longest run of word characters at the start of `s`. */
  function WordRun(s: string): (n: nat)
    ensures n <= |s| && AllWord(s[..n])
    ensures n < |s| ==> !IsWordChar(s[n])
  {
    if s != [] && IsWordChar(s[0]) then 1 + WordRun(s[1..]) else 0
  }

  /** `/^(?:\w+:)?\/\//`: the string starts with `//`, or with a scheme name
      made of word characters followed by `://`. Since `:` is not a word
      character, the only candidate scheme is the whole leading word run. */
  predicate HasScheme(s: string) {
    || "//" <= s
    || (var n := WordRun(s); n >= 1 && "://" <= s[n..])
  }

  /** The regular expression read literally: a non-empty word prefix of
      length `k` followed by `://`. */
  predicate SchemeEndsAt(s: string, k: nat) {
    1 <= k && k + 3 <= |s| && AllWord(s[..k]) && s[k..k + 3] == "://"
  }

  /** A word prefix followed by `:` is the whole leading word run. */
  lemma {:induction false} SchemeIsWordRun(s: string, k: nat)
    requires SchemeEndsAt(s, k)
    ensures WordRun(s) == k && HasScheme(s)
  {
    var n := WordRun(s);
    assert s[k] == s[k..k + 3][0] == ':';
    assert forall i :: 0 <= i < k ==> IsWordChar(s[..k][i]);
    assert forall i :: 0 <= i < n ==> IsWordChar(s[..n][i]);
    assert n == k;
    assert s[n..][..3] == s[k..k + 3];
  }

  /** The computed reading of `/^(?:\w+:)?\/\//` agrees with the literal
      one: `//` at the start, or some non-empty word prefix followed by
      `://`. */
  lemma HasSchemeMeans(s: string)
    ensures HasScheme(s) <==> "//" <= s || exists k: nat :: SchemeEndsAt(s, k)
  {
    var n := WordRun(s);
    if n >= 1 && "://" <= s[n..] {
      assert s[n..n + 3] == s[n..][..3];
      assert SchemeEndsAt(s, n);
    }
    if exists k: nat :: SchemeEndsAt(s, k) {
      var k: nat :| SchemeEndsAt(s, k);
      SchemeIsWordRun(s, k);
    }
  }

  /** `prependHttp(url, secure)`: trims the host, passes a relative path
      through, and otherwise prefixes `https://` (when `secure` and the host is
      not `localhost…`) or `http://` unless a scheme or `//` is already there. */
  function PrependHttp(url: string, secure: bool): (r: string)
    ensures var t := Trim(url);
      && (r == t || r == "http://" + t || r == "https://" + t)
      && (r == t <==> StartsRelative(t) || HasScheme(t))
      && (r == "https://" + t ==> secure && !("localhost" <= t))
      && (r == "http://" + t ==> !secure || "localhost" <= t)
    ensures IsTrimmed(r) && (StartsRelative(r) || HasScheme(r))
  {
    var t := Trim(url);
    if StartsRelative(t) then t
    else
      var secure := secure && !("localhost" <= t);
      if HasScheme(t) then t
      else
        var p := if secure then "https://" else "http://";
        PrefixedHasScheme(p, t);
        p + t
  }

  /** A string that starts with `http://` or `https://` has a scheme and is
      trimmed whenever its tail is. */
  lemma PrefixedHasScheme(p: string, t: string)
    requires p == "http://" || p == "https://"
    requires IsTrimmed(t)
    ensures HasScheme(p + t) && IsTrimmed(p + t)
  {
    var s := p + t;
    var n := |p| - 3;
    assert s[..|p|] == p;
    assert s[n..n + 3] == p[n..] == "://";
    assert s[..n] == p[..n] && AllWord(p[..n]);
    SchemeIsWordRun(s, n);
    if t == [] {
      assert s[|s| - 1] == '/';
    } else {
      assert s[|s| - 1] == t[|t| - 1];
    }
  }

  /** A relative path is passed through trimmed, whatever the `secure`
      flag. */
  lemma RelativePassthrough(url: string, secure: bool)
    requires StartsRelative(Trim(url))
    ensures PrependHttp(url, secure) == Trim(url)
  {
  }

  /** A `localhost` host without a scheme gets plain `http://` even when
      `https` is preferred. */
  lemma LocalhostIsPlain(url: string, secure: bool)
    requires "localhost" <= Trim(url) && !HasScheme(Trim(url))
    ensures PrependHttp(url, secure) == "http://" + Trim(url)
  {
  }

  /** Normalising a normalised host changes nothing. */
  lemma PrependHttpIdempotent(url: string, secure: bool)
    ensures PrependHttp(PrependHttp(url, secure), secure) == PrependHttp(url, secure)
  {
    var r := PrependHttp(url, secure);
    TrimTrimmed(r);
  }

  /** The `typeof` guard: a host that is not a string is rejected (`None`
      stands for the `TypeError`), a string is normalised. */
  function PrependHttpChecked(url: Arg, secure: bool): (r: Option<string>)
    ensures r.None? <==> url.NotText?
    ensures url.Text? ==> r == Some(PrependHttp(url.s, secure))
  {
    match url
    case NotText(_) => None
    case Text(s) => Some(PrependHttp(s, secure))
  }
}
