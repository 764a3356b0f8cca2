/** The two string operations the CAPTCHA guard and the token check use:
    `String.prototype.trim` and `String.prototype.toUpperCase`. */
module Text {

  /** ECMAScript WhiteSpace and LineTerminator code points: exactly what `trim` removes. */
  predicate IsWhitespace(c: char)
  {
    c == '\t' || c == '\n' || c == '\U{000B}' || c == '\U{000C}' || c == '\r' || c == ' '
    || c == '\U{00A0}' || c == '\U{1680}' || '\U{2000}' <= c <= '\U{200A}'
    || c == '\U{2028}' || c == '\U{2029}' || c == '\U{202F}' || c == '\U{205F}'
    || c == '\U{3000}' || c == '\U{FEFF}'
  }

  /** Every character of `s` is whitespace (the empty string included). */
  predicate Blank(s: string)
  {
    forall k :: 0 <= k < |s| ==> IsWhitespace(s[k])
  }

  /** `s` neither starts nor ends with whitespace. */
  predicate IsTrimmed(s: string)
  {
    s == [] || (!IsWhitespace(s[0]) && !IsWhitespace(s[|s| - 1]))
  }

  /** `s` without its leading whitespace: a suffix of `s` reached by dropping whitespace only. */
  function TrimStart(s: string): (r: string)
    ensures |r| <= |s| && r == s[|s| - |r|..]
    ensures forall k :: 0 <= k < |s| - |r| ==> IsWhitespace(s[k])
    ensures r != [] ==> !IsWhitespace(r[0])
  {
    if s != [] && IsWhitespace(s[0]) then TrimStart(s[1..]) else s
  }

  /** `s` without its trailing whitespace: a prefix of `s` reached by dropping whitespace only. */
  function TrimEnd(s: string): (r: string)
    ensures |r| <= |s| && r == s[..|r|]
    ensures forall k :: |r| <= k < |s| ==> IsWhitespace(s[k])
    ensures r != [] ==> !IsWhitespace(r[|r| - 1])
  {
    if s != [] && IsWhitespace(s[|s| - 1]) then TrimEnd(s[..|s| - 1]) else s
  }

  /** `s.trim()`. */
  function Trim(s: string): (r: string)
    ensures |r| <= |s|
    ensures IsTrimmed(r)
  {
    var t := TrimStart(s);
    var r := TrimEnd(t);
    assert r != [] ==> r[0] == t[0];
    r
  }

  /** `toUpperCase` on one character, over the ASCII letters. */
  function UpperChar(c: char): char
  {
    if 'a' <= c <= 'z' then (c as int - 32) as char else c
  }

  predicate IsLowerLetter(c: char)
  {
    'a' <= c <= 'z'
  }

  /** No character of `s` is changed by upper-casing. */
  predicate NoLower(s: string)
  {
    forall k :: 0 <= k < |s| ==> !IsLowerLetter(s[k])
  }

  /** `s.toUpperCase()`: every character upper-cased in place. */
  function Upper(s: string): (r: string)
    ensures |r| == |s|
    ensures forall k :: 0 <= k < |s| ==> r[k] == UpperChar(s[k])
  {
    if s == [] then [] else [UpperChar(s[0])] + Upper(s[1..])
  }

  /** Upper-casing leaves no lower-case letter, and changes nothing that has none. */
  lemma UpperNormalises(s: string)
    ensures NoLower(Upper(s))
    ensures NoLower(s) ==> Upper(s) == s
  {
  }

  /** Upper-casing keeps whitespace as whitespace and everything else as non-whitespace. */
  lemma UpperKeepsWhitespace(c: char)
    ensures IsWhitespace(UpperChar(c)) <==> IsWhitespace(c)
  {
  }

  lemma {:induction false} UpperConcat(a: string, b: string)
    ensures Upper(a + b) == Upper(a) + Upper(b)
    decreases |a|
  {
    if a == [] {
      assert a + b == b;
    } else {
      assert (a + b)[0] == a[0] && (a + b)[1..] == a[1..] + b;
      UpperConcat(a[1..], b);
    }
  }

  /** A string is trimmed to nothing exactly when it is blank. */
  lemma TrimEmptyIffBlank(s: string)
    ensures Trim(s) == [] <==> Blank(s)
  {
    var t := TrimStart(s);
    if t != [] {
      assert s[|s| - |t|] == t[0];
    }
  }

  /** Leading whitespace in front of a string that does not start with
      whitespace is exactly what `TrimStart` drops. */
  lemma {:induction false} TrimStartPadded(p: string, s: string)
    requires Blank(p) && (s == [] || !IsWhitespace(s[0]))
    ensures TrimStart(p + s) == s
    decreases |p|
  {
    if p == [] {
      assert p + s == s;
    } else {
      assert (p + s)[0] == p[0] && (p + s)[1..] == p[1..] + s;
      TrimStartPadded(p[1..], s);
    }
  }

  /** Trailing whitespace after a string that does not end with whitespace is
      exactly what `TrimEnd` drops. */
  lemma {:induction false} TrimEndPadded(s: string, q: string)
    requires Blank(q) && (s == [] || !IsWhitespace(s[|s| - 1]))
    ensures TrimEnd(s + q) == s
    decreases |q|
  {
    if q == [] {
      assert s + q == s;
    } else {
      var u := s + q;
      assert u[|u| - 1] == q[|q| - 1] && u[..|u| - 1] == s + q[..|q| - 1];
      TrimEndPadded(s, q[..|q| - 1]);
    }
  }

  /** The trimmed middle of whitespace padding is exactly what `trim` returns. */
  lemma TrimUnique(p: string, t: string, q: string)
    requires Blank(p) && Blank(q) && IsTrimmed(t)
    ensures Trim(p + t + q) == t
  {
    if t == [] {
      BlankConcat(p, q);
      assert p + t + q == (p + q) + [];
      TrimStartPadded(p + q, []);
    } else {
      assert p + t + q == p + (t + q);
      TrimStartPadded(p, t + q);
      TrimEndPadded(t, q);
    }
  }

  lemma Reassociate(s: string, p: string, t: string, r: string, q: string)
    requires s == p + t && t == r + q
    ensures s == p + r + q
  {
  }

  lemma Regroup(pre: string, p: string, t: string, q: string, post: string)
    ensures pre + (p + t + q) + post == (pre + p) + t + (q + post)
  {
  }

  lemma BlankConcat(a: string, b: string)
    requires Blank(a) && Blank(b)
    ensures Blank(a + b)
  {
    forall k | 0 <= k < |a + b| ensures IsWhitespace((a + b)[k]) {
      if k < |a| { assert (a + b)[k] == a[k]; } else { assert (a + b)[k] == b[k - |a|]; }
    }
  }

  lemma TrimStartSplit(s: string)
    ensures Blank(s[..|s| - |TrimStart(s)|])
    ensures s == s[..|s| - |TrimStart(s)|] + TrimStart(s)
  {
    var n := |s| - |TrimStart(s)|;
    forall k | 0 <= k < n ensures IsWhitespace(s[..n][k]) { assert s[..n][k] == s[k]; }
    assert s[..n] + s[n..] == s;
  }

  lemma TrimEndSplit(t: string)
    ensures Blank(t[|TrimEnd(t)|..])
    ensures t == TrimEnd(t) + t[|TrimEnd(t)|..]
  {
    var n := |TrimEnd(t)|;
    forall k | 0 <= k < |t| - n ensures IsWhitespace(t[n..][k]) { assert t[n..][k] == t[n + k]; }
    assert t[..n] + t[n..] == t;
  }

  /** Every string is its trimmed form between two blank paddings. */
  lemma TrimSplit(s: string) returns (p: string, q: string)
    ensures Blank(p) && Blank(q)
    ensures s == p + Trim(s) + q
  {
    var t := TrimStart(s);
    var r := TrimEnd(t);
    p := s[..|s| - |t|];
    q := t[|r|..];
    TrimStartSplit(s);
    TrimEndSplit(t);
    Reassociate(s, p, t, r, q);
  }

  /** A string that is already trimmed is its own trimmed form. */
  lemma TrimmedIsFixed(t: string)
    requires IsTrimmed(t)
    ensures Trim(t) == t
  {
    TrimUnique([], t, []);
    assert [] + t + [] == t;
  }

  /** Trimming twice is trimming once. */
  lemma TrimIdempotent(s: string)
    ensures Trim(Trim(s)) == Trim(s)
  {
    TrimmedIsFixed(Trim(s));
  }

  /** Whitespace added around a string does not survive `trim`. */
  lemma TrimIgnoresPadding(pre: string, s: string, post: string)
    requires Blank(pre) && Blank(post)
    ensures Trim(pre + s + post) == Trim(s)
  {
    var p, q := TrimSplit(s);
    BlankConcat(pre, p);
    BlankConcat(q, post);
    Regroup(pre, p, Trim(s), q, post);
    TrimUnique(pre + p, Trim(s), q + post);
  }

  /** Trimming and upper-casing commute (over the ASCII case mapping). */
  lemma TrimUpperCommute(s: string)
    ensures Trim(Upper(s)) == Upper(Trim(s))
  {
    var p, q := TrimSplit(s);
    var t := Trim(s);
    UpperConcat(p + t, q);
    UpperConcat(p, t);
    assert Upper(s) == Upper(p) + Upper(t) + Upper(q);
    forall k | 0 <= k < |p| ensures IsWhitespace(Upper(p)[k]) { UpperKeepsWhitespace(p[k]); }
    forall k | 0 <= k < |q| ensures IsWhitespace(Upper(q)[k]) { UpperKeepsWhitespace(q[k]); }
    if t != [] {
      UpperKeepsWhitespace(t[0]);
      UpperKeepsWhitespace(t[|t| - 1]);
    }
    TrimUnique(Upper(p), Upper(t), Upper(q));
  }
}
