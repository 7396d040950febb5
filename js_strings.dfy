/** Values and string operations of the JavaScript runtime that the controllers rely on:
    optional values (`null`/`undefined`), thrown errors, the outcome of a call to a
    collaborator, `String.prototype.trim` and `String.prototype.split` with a one-character
    separator. Strings are sequences of Unicode scalar values. */
module JsStrings {

  datatype Option<+T> = None | Some(value: T)

  /** A thrown JavaScript error, seen through `error.message` (which may be absent). */
  datatype Thrown = Thrown(message: Option<string>)

  /** What a call to an external collaborator (database, model, hosting, GitHub) does:
      it returns a value or it throws. Which one happens is chosen by the caller of the model. */
  datatype Reply<+T> = Ok(value: T) | Throws(error: Thrown)

  /** The characters `trim` removes: ECMAScript WhiteSpace (TAB, VT, FF, ZWNBSP and every
      space separator of Unicode category Zs) and LineTerminator (LF, CR, LS, PS). */
  predicate IsJsWhitespace(c: char) {
    || c == '\t' || c == '\n' || c == '\U{000B}' || c == '\U{000C}' || c == '\r'
    || c == ' ' || c == '\U{00A0}' || c == '\U{1680}'
    || ('\U{2000}' <= c <= '\U{200A}')
    || c == '\U{2028}' || c == '\U{2029}' || c == '\U{202F}' || c == '\U{205F}'
    || c == '\U{3000}' || c == '\U{FEFF}'
  }

  predicate AllWhitespace(s: string) {
    forall k :: 0 <= k < |s| ==> IsJsWhitespace(s[k])
  }

  /** Neither end of `s` is whitespace. */
  predicate IsTrimmed(s: string) {
    s == [] || (!IsJsWhitespace(s[0]) && !IsJsWhitespace(s[|s| - 1]))
  }

  /** `r` is the slice of `s` starting at `lo`, and everything around it is whitespace. */
  predicate TrimmedFrom(s: string, r: string, lo: int) {
    && 0 <= lo && lo + |r| <= |s|
    && r == s[lo..lo + |r|]
    && AllWhitespace(s[..lo])
    && AllWhitespace(s[lo + |r|..])
  }

  /** `trimStart`: drop leading whitespace. */
  function TrimStart(s: string): (r: string)
    ensures |r| <= |s| && r == s[|s| - |r|..]
    ensures AllWhitespace(s[..|s| - |r|])
    ensures r != [] ==> !IsJsWhitespace(r[0])
  {
    if s != [] && IsJsWhitespace(s[0]) then
      var r := TrimStart(s[1..]);
      assert s[..|s| - |r|] == [s[0]] + s[1..][..|s| - 1 - |r|];
      r
    else
      s
  }

  /** `trimEnd`: drop trailing whitespace. */
  function TrimEnd(s: string): (r: string)
    ensures |r| <= |s| && r == s[..|r|]
    ensures AllWhitespace(s[|r|..])
    ensures r != [] ==> !IsJsWhitespace(r[|r| - 1])
  {
    if s != [] && IsJsWhitespace(s[|s| - 1]) then
      var r := TrimEnd(s[..|s| - 1]);
      assert s[|r|..] == s[..|s| - 1][|r|..] + [s[|s| - 1]];
      r
    else
      s
  }

  /** `String.prototype.trim`: the whitespace-free core of `s`, cut out of it. */
  function Trim(s: string): (r: string)
    ensures IsTrimmed(r)
    ensures TrimmedFrom(s, r, |s| - |TrimStart(s)|)
  {
    var t := TrimStart(s);
    var r := TrimEnd(t);
    TrimSlices(s, t, r);
    r
  }

  /** Cutting white space off the front of `s` and then off the back leaves a trimmed slice. */
  lemma TrimSlices(s: string, t: string, r: string)
    requires |t| <= |s| && t == s[|s| - |t|..] && AllWhitespace(s[..|s| - |t|])
    requires t != [] ==> !IsJsWhitespace(t[0])
    requires |r| <= |t| && r == t[..|r|] && AllWhitespace(t[|r|..])
    requires r != [] ==> !IsJsWhitespace(r[|r| - 1])
    ensures IsTrimmed(r) && TrimmedFrom(s, r, |s| - |t|)
  {
    var lo := |s| - |t|;
    assert t == s[lo..];
    assert r == s[lo..][..|r|] == s[lo..lo + |r|];
    assert s[lo + |r|..] == t[|r|..];
  }

  /** Trimming is determined by its contract: any trimmed slice of `s` that has only
      whitespace around it is `Trim(s)`. */
  lemma TrimCharacterized(s: string, r: string, lo: int)
    requires TrimmedFrom(s, r, lo) && IsTrimmed(r)
    ensures r == Trim(s)
  {
    var a, b := s[..lo], s[lo + |r|..];
    assert s == a + (r + b);
    if r == [] {
      assert AllWhitespace(a + b) by {
        forall k | 0 <= k < |a + b| ensures IsJsWhitespace((a + b)[k]) {
          if k >= |a| { assert (a + b)[k] == b[k - |a|]; }
        }
      }
      assert r + b == b && a + b + [] == s;
      TrimStartOf(a + b, []);
      assert TrimStart(s) == [];
    } else {
      TrimStartOf(a, r + b);
      assert TrimStart(s) == r + b;
      TrimEndOf(r, b);
    }
  }

  /** `TrimStart` removes exactly a whitespace prefix followed by a non-whitespace character. */
  lemma {:induction false} TrimStartOf(a: string, b: string)
    requires AllWhitespace(a)
    requires b != [] ==> !IsJsWhitespace(b[0])
    ensures TrimStart(a + b) == b
  {
    if a != [] {
      assert (a + b)[1..] == a[1..] + b;
      TrimStartOf(a[1..], b);
    }
  }

  /** `TrimEnd` removes exactly a whitespace suffix preceded by a non-whitespace character. */
  lemma {:induction false} TrimEndOf(b: string, c: string)
    requires AllWhitespace(c)
    requires b != [] ==> !IsJsWhitespace(b[|b| - 1])
    ensures TrimEnd(b + c) == b
  {
    if c != [] {
      assert (b + c)[..|b + c| - 1] == b + c[..|c| - 1];
      TrimEndOf(b, c[..|c| - 1]);
    } else {
      assert b + c == b;
    }
  }

  /** Trimming a string that is already trimmed changes nothing. */
  lemma TrimTrimmed(s: string)
    requires IsTrimmed(s)
    ensures Trim(s) == s
  {
    assert TrimmedFrom(s, s, 0) by {
      assert s[..0] == [] && s[|s|..] == [];
    }
    TrimCharacterized(s, s, 0);
  }

  /** `s.split(sep)` for a one-character separator: the pieces between separators,
      so there is always at least one piece. */
  function Split(s: string, sep: char): (parts: seq<string>)
    ensures |parts| >= 1
    ensures forall k :: 0 <= k < |parts| ==> sep !in parts[k]
    ensures Join(parts, sep) == s
  {
    if s == [] then [""]
    else
      var rest := Split(s[1..], sep);
      if s[0] == sep then [""] + rest
      else
        JoinFirst(rest, sep, [s[0]]);
        [[s[0]] + rest[0]] + rest[1..]
  }

  /** `parts.join(sep)`. */
  function Join(parts: seq<string>, sep: char): string
    requires |parts| >= 1
  {
    if |parts| == 1 then parts[0] else parts[0] + [sep] + Join(parts[1..], sep)
  }

  lemma JoinFirst(parts: seq<string>, sep: char, c: string)
    requires |parts| >= 1
    ensures Join([c + parts[0]] + parts[1..], sep) == c + Join(parts, sep)
  {
    var q := [c + parts[0]] + parts[1..];
    if |parts| > 1 {
      assert q[1..] == parts[1..];
    }
  }

  /** Splitting undoes joining pieces that contain no separator. */
  lemma {:induction false} SplitJoin(parts: seq<string>, sep: char)
    requires |parts| >= 1
    requires forall k :: 0 <= k < |parts| ==> sep !in parts[k]
    ensures Split(Join(parts, sep), sep) == parts
  {
    var p := parts[0];
    if |parts| == 1 {
      SplitNoSeparator(p, sep);
      assert Join([p], sep) == p;
    } else {
      var rest := parts[1..];
      SplitJoin(rest, sep);
      SplitPiece(p, Join(rest, sep), sep);
      assert Split(Join(rest, sep), sep) == rest;
      assert [p] + rest == parts;
    }
  }

  /** A string without the separator splits into itself. */
  lemma {:induction false} SplitNoSeparator(p: string, sep: char)
    requires sep !in p
    ensures Split(p, sep) == [p]
  {
    if p != [] {
      SplitNoSeparator(p[1..], sep);
      assert [p[0]] + p[1..] == p;
    }
  }

  /** Splitting `p + [sep] + t` puts `p` in front of the pieces of `t`. */
  lemma {:induction false} SplitPiece(p: string, t: string, sep: char)
    requires sep !in p
    ensures Split(p + [sep] + t, sep) == [p] + Split(t, sep)
  {
    var s := p + [sep] + t;
    if p == [] {
      assert s == [sep] + t && s[1..] == t;
    } else {
      assert s[0] == p[0] && s[1..] == p[1..] + [sep] + t;
      SplitPiece(p[1..], t, sep);
      var rest := Split(s[1..], sep);
      assert rest[0] == p[1..] && rest[1..] == Split(t, sep);
      assert [p[0]] + p[1..] == p;
    }
  }
}
