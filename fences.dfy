/** `limparRetorno`: strips markdown code fences from a model reply.
    The first replacement deletes every match of the case-insensitive global pattern
    "three backticks, optionally `html`, `css` or `js`, optionally a line feed"; the second
    deletes every remaining "```"; finally the text is trimmed. A global replacement scans
    left to right and resumes after each match, which is what the two strip functions do.
    Without the `u` flag, case-insensitive matching folds ASCII letters only. */
module Fences {
  import opened JsStrings

  /** Three backticks start at position `i` of `s`. */
  predicate FenceAt(s: string, i: int) {
    0 <= i && i + 3 <= |s| && s[i] == '`' && s[i + 1] == '`' && s[i + 2] == '`'
  }

  /** `s` contains no "```". */
  predicate NoFence(s: string) {
    forall i :: 0 <= i < |s| ==> !FenceAt(s, i)
  }

  predicate NoBackticks(s: string) {
    forall k :: 0 <= k < |s| ==> s[k] != '`'
  }

  /** ASCII lower-casing, the case folding the `i` flag applies to these letters. */
  function LowerAscii(c: char): char {
    if 'A' <= c <= 'Z' then (c as int + 32) as char else c
  }

  /** `t` begins with the lower-case word `w`, ignoring ASCII case. */
  predicate StartsWithCi(t: string, w: string) {
    |w| <= |t| && forall k :: 0 <= k < |w| ==> LowerAscii(t[k]) == w[k]
  }

  /** Length of the optional `(?:html|css|js)` group at the start of `t`; the alternatives
      are tried in order and the group is greedy. */
  function TagLength(t: string): (n: nat)
    ensures n <= |t|
    ensures n == 0 || n == 2 || n == 3 || n == 4
  {
    if StartsWithCi(t, "html") then 4
    else if StartsWithCi(t, "css") then 3
    else if StartsWithCi(t, "js") then 2
    else 0
  }

  /** Length of the first pattern's match at the start of `s`, which begins with "```". */
  function TaggedFenceLength(s: string): (n: nat)
    requires FenceAt(s, 0)
    ensures 3 <= n <= |s|
  {
    var tag := TagLength(s[3..]);
    if 3 + tag < |s| && s[3 + tag] == '\n' then 3 + tag + 1 else 3 + tag
  }

  /** The first replacement: every "```", with an optional html/css/js tag in any ASCII case
      and an optional line feed after it, is deleted. */
  function StripTaggedFences(s: string): (r: string)
    ensures |r| <= |s|
    decreases |s|
  {
    if |s| < 3 then s
    else if FenceAt(s, 0) then StripTaggedFences(s[TaggedFenceLength(s)..])
    else [s[0]] + StripTaggedFences(s[1..])
  }

  /** The second replacement: every remaining "```" is deleted, three characters at a time. */
  function StripBareFences(s: string): (r: string)
    ensures |r| <= |s| && (|s| - |r|) % 3 == 0
    decreases |s|
  {
    if |s| < 3 then s
    else if FenceAt(s, 0) then StripBareFences(s[3..])
    else [s[0]] + StripBareFences(s[1..])
  }

  /** `limparRetorno(codigo)`. The result has no "```" and no surrounding whitespace. */
  function LimparRetorno(codigo: string): (r: string)
    ensures NoFence(r)
    ensures IsTrimmed(r)
  {
    var once := StripTaggedFences(codigo);
    var twice := StripBareFences(once);
    StripBareHasNoFence(once);
    TrimKeepsNoFence(twice);
    Trim(twice)
  }

  /** Trimming cuts a slice out, so it cannot create a fence. */
  lemma TrimKeepsNoFence(s: string)
    requires NoFence(s)
    ensures NoFence(Trim(s))
  {
    TrimmedSliceKeepsNoFence(s, |s| - |TrimStart(s)|, Trim(s));
  }

  lemma TrimmedSliceKeepsNoFence(s: string, lo: int, r: string)
    requires NoFence(s) && TrimmedFrom(s, r, lo)
    ensures NoFence(r)
  {
    NoFenceSlice(s, lo, lo + |r|);
  }

  /** A slice of a fence-free string is fence-free. */
  lemma NoFenceSlice(s: string, i: int, j: int)
    requires NoFence(s) && 0 <= i <= j <= |s|
    ensures NoFence(s[i..j])
  {
    forall k | FenceAt(s[i..j], k) ensures false {
      assert FenceAt(s, i + k);
    }
  }

  /** A string that does not start with "```" keeps its first character in front. */
  lemma FirstKept(t: string)
    requires t != [] && !FenceAt(t, 0)
    ensures StripTaggedFences(t) == [t[0]] + StripTaggedFences(t[1..])
    ensures StripBareFences(t) == [t[0]] + StripBareFences(t[1..])
  {
    if |t| < 3 {
      assert [t[0]] + t[1..] == t;
    }
  }

  /** Putting `c` in front of a fence-free `p` creates a fence only if `c` and the two
      first characters of `p` are backticks. */
  lemma ConsNoFence(c: char, p: string)
    requires NoFence(p)
    requires c == '`' ==> !(|p| >= 2 && p[0] == '`' && p[1] == '`')
    ensures NoFence([c] + p)
  {
    forall i | FenceAt([c] + p, i) ensures false {
      if i > 0 { assert FenceAt(p, i - 1); }
    }
  }

  /** After the first replacement no "```" is left over: the leftmost-first scan removes
      every run of three backticks, and what it keeps next to a removed fence never
      completes a new one. So the second replacement never has anything to remove. */
  lemma {:induction false} StripTaggedHasNoFence(s: string)
    ensures NoFence(StripTaggedFences(s))
    decreases |s|
  {
    if |s| < 3 {
      assert forall i :: !FenceAt(s, i);
    } else if FenceAt(s, 0) {
      StripTaggedHasNoFence(s[TaggedFenceLength(s)..]);
    } else {
      var p := StripTaggedFences(s[1..]);
      StripTaggedHasNoFence(s[1..]);
      if s[0] == '`' {
        var t := s[1..];
        if t[0] != '`' {
          FirstKept(t);
        } else {
          FirstKept(t);
          FirstKept(t[1..]);
        }
      }
      ConsNoFence(s[0], p);
    }
  }

  /** The same holds of the second replacement on any input. */
  lemma {:induction false} StripBareHasNoFence(s: string)
    ensures NoFence(StripBareFences(s))
    decreases |s|
  {
    if |s| < 3 {
      assert forall i :: !FenceAt(s, i);
    } else if FenceAt(s, 0) {
      StripBareHasNoFence(s[3..]);
    } else {
      var p := StripBareFences(s[1..]);
      StripBareHasNoFence(s[1..]);
      if s[0] == '`' {
        var t := s[1..];
        if t[0] != '`' {
          FirstKept(t);
        } else {
          FirstKept(t);
          FirstKept(t[1..]);
        }
      }
      ConsNoFence(s[0], p);
    }
  }

  /** Both replacements leave a fence-free string as it is. */
  lemma {:induction false} StripWithoutFence(s: string)
    requires NoFence(s)
    ensures StripTaggedFences(s) == s
    ensures StripBareFences(s) == s
    decreases |s|
  {
    if |s| >= 3 {
      assert !FenceAt(s, 0);
      NoFenceSlice(s, 1, |s|);
      assert s[1..|s|] == s[1..];
      StripWithoutFence(s[1..]);
      assert [s[0]] + s[1..] == s;
    }
  }

  /** The second replacement in `limparRetorno` is redundant. */
  lemma SecondReplaceRedundant(s: string)
    ensures StripBareFences(StripTaggedFences(s)) == StripTaggedFences(s)
  {
    StripTaggedHasNoFence(s);
    StripWithoutFence(StripTaggedFences(s));
  }

  /** Cleaning a cleaned reply changes nothing. */
  lemma LimparIdempotent(s: string)
    ensures LimparRetorno(LimparRetorno(s)) == LimparRetorno(s)
  {
    var r := LimparRetorno(s);
    StripWithoutFence(r);
    TrimTrimmed(r);
  }

  /** A reply without "```" (in particular, without any backtick) is only trimmed. */
  lemma LimparWithoutFence(s: string)
    requires NoFence(s)
    ensures LimparRetorno(s) == Trim(s)
  {
    StripWithoutFence(s);
  }

  lemma LimparWithoutBackticks(s: string)
    requires NoBackticks(s)
    ensures LimparRetorno(s) == Trim(s)
  {
    assert NoFence(s);
    LimparWithoutFence(s);
  }

  /** A fence tag as the model writes it: `html`, `css` or `js` in any ASCII case, or none. */
  predicate IsFenceTag(tag: string) {
    || tag == []
    || (|tag| == 4 && StartsWithCi(tag, "html"))
    || (|tag| == 3 && StartsWithCi(tag, "css"))
    || (|tag| == 2 && StartsWithCi(tag, "js"))
  }

  /** The first replacement passes over text that has no backtick. */
  lemma {:induction false} StripTaggedKeepsPlainPrefix(b: string, t: string)
    requires NoBackticks(b)
    ensures StripTaggedFences(b + t) == b + StripTaggedFences(t)
    decreases |b|
  {
    if b != [] {
      var bt := b + t;
      assert bt[0] == b[0] && bt[1..] == b[1..] + t;
      assert !FenceAt(bt, 0);
      FirstKept(bt);
      assert NoBackticks(b[1..]) by {
        forall k | 0 <= k < |b| - 1 ensures b[1..][k] != '`' { assert b[1..][k] == b[k + 1]; }
      }
      StripTaggedKeepsPlainPrefix(b[1..], t);
      var rest := StripTaggedFences(t);
      assert StripTaggedFences(bt) == [b[0]] + (b[1..] + rest);
      assert [b[0]] + (b[1..] + rest) == ([b[0]] + b[1..]) + rest;
      assert [b[0]] + b[1..] == b;
    } else {
      assert b + t == t;
    }
  }

  /** The tag group matches exactly a fence tag followed by a line feed. */
  lemma TagLengthOf(tag: string, rest: string)
    requires IsFenceTag(tag) && rest != [] && rest[0] == '\n'
    ensures TagLength(tag + rest) == |tag|
  {
    var t := tag + rest;
    if tag == [] {
      assert t[0] == '\n';
      assert !StartsWithCi(t, "html") && !StartsWithCi(t, "css") && !StartsWithCi(t, "js");
    } else if |tag| == 4 {
      assert t[..4] == tag;
    } else if |tag| == 3 {
      assert t[..3] == tag;
      assert LowerAscii(t[0]) == 'c';
    } else {
      assert t[..2] == tag;
      assert LowerAscii(t[0]) == 'j';
    }
  }

  /** The usual shape of a reply, "```html\n" + body + "```", cleans to the trimmed body. */
  lemma LimparFencedBlock(tag: string, body: string)
    requires IsFenceTag(tag) && NoBackticks(body)
    ensures LimparRetorno("```" + tag + "\n" + body + "```") == Trim(body)
  {
    var s := "```" + tag + "\n" + body + "```";
    assert s[3..] == tag + ("\n" + body + "```");
    TagLengthOf(tag, "\n" + body + "```");
    assert s[3 + |tag|] == '\n';
    assert TaggedFenceLength(s) == 4 + |tag|;
    assert s[4 + |tag|..] == body + "```";
    StripTaggedKeepsPlainPrefix(body, "```");
    assert StripTaggedFences("```") == [] by {
      assert FenceAt("```", 0);
      assert TaggedFenceLength("```") == 3;
    }
    assert StripTaggedFences(s) == body + [];
    assert body + [] == body;
    LimparWithoutBackticks(body);
    StripWithoutFence(body);
  }
}
