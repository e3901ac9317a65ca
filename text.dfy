/**
 * The JavaScript string operations the services rely on, over `string`
 * (a sequence of Unicode scalar values): `trim`, `startsWith`, `includes`,
 * `replace` with a string pattern (first occurrence only), `Array.join`,
 * `toLowerCase` (ASCII letters only) and the decimal rendering of a number.
 */
module Text {
  import opened Wrappers

  /** The code points `String.prototype.trim` removes: WhiteSpace and LineTerminator of ECMAScript. */
  const JS_SPACES: set<char> := {
    '\t', '\n', '\U{B}', '\U{C}', '\r', ' ', '\U{A0}', '\U{1680}',
    '\U{2000}', '\U{2001}', '\U{2002}', '\U{2003}', '\U{2004}', '\U{2005}', '\U{2006}',
    '\U{2007}', '\U{2008}', '\U{2009}', '\U{200A}',
    '\U{2028}', '\U{2029}', '\U{202F}', '\U{205F}', '\U{3000}', '\U{FEFF}'
  }

  predicate IsJsSpace(c: char) {
    c in JS_SPACES
  }

  predicate AllSpace(s: string) {
    forall k | 0 <= k < |s| :: IsJsSpace(s[k])
  }

  /** Neither end of `s` is white space: what `trim` leaves. */
  predicate Trimmed(s: string) {
    s == "" || (!IsJsSpace(s[0]) && !IsJsSpace(s[|s| - 1]))
  }

  /** `trimStart`: the suffix left after the longest all-space prefix. */
  function TrimStart(s: string): string
    decreases |s|
  {
    if s != "" && IsJsSpace(s[0]) then TrimStart(s[1..]) else s
  }

  /** `trimStart` leaves a suffix that does not start with white space, and removes only white space. */
  lemma {:induction false} TrimStartSpec(s: string)
    ensures var r := TrimStart(s);
            |r| <= |s| && r == s[|s| - |r|..] && (r == "" || !IsJsSpace(r[0])) &&
            forall k | 0 <= k < |s| - |r| :: IsJsSpace(s[k])
    decreases |s|
  {
    if s != "" && IsJsSpace(s[0]) {
      TrimStartSpec(s[1..]);
    }
  }

  /** `trimEnd`: the prefix left before the longest all-space suffix. */
  function TrimEnd(s: string): string
    decreases |s|
  {
    if s != "" && IsJsSpace(s[|s| - 1]) then TrimEnd(s[..|s| - 1]) else s
  }

  /** `trimEnd` leaves a prefix that does not end with white space, and removes only white space. */
  lemma {:induction false} TrimEndSpec(s: string)
    ensures var r := TrimEnd(s);
            |r| <= |s| && r == s[..|r|] && (r == "" || !IsJsSpace(r[|r| - 1])) &&
            forall k | |r| <= k < |s| :: IsJsSpace(s[k])
    decreases |s|
  {
    if s != "" && IsJsSpace(s[|s| - 1]) {
      TrimEndSpec(s[..|s| - 1]);
    }
  }

  /** `trim`: both ends stripped of white space. */
  function Trim(s: string): (r: string)
    ensures Trimmed(r)
    ensures |r| <= |s|
  {
    TrimStartSpec(s);
    TrimEndSpec(TrimStart(s));
    TrimEnd(TrimStart(s))
  }

  /** The suffix after an all-space prefix that ends at a non-space is what `trimStart` leaves. */
  lemma TrimStartAt(s: string, n: nat)
    requires n <= |s| && AllSpace(s[..n])
    requires n == |s| || !IsJsSpace(s[n])
    ensures TrimStart(s) == s[n..]
  {
    var r := TrimStart(s);
    TrimStartSpec(s);
    var m := |s| - |r|;
    forall k | 0 <= k < n ensures IsJsSpace(s[k]) {
      assert s[..n][k] == s[k];
    }
    assert r != "" ==> r[0] == s[m];
  }

  /** The prefix before an all-space suffix that starts after a non-space is what `trimEnd` leaves. */
  lemma TrimEndAt(s: string, n: nat)
    requires n <= |s| && AllSpace(s[n..])
    requires n == 0 || !IsJsSpace(s[n - 1])
    ensures TrimEnd(s) == s[..n]
  {
    var r := TrimEnd(s);
    TrimEndSpec(s);
    var m := |r|;
    forall k | n <= k < |s| ensures IsJsSpace(s[k]) {
      assert s[n..][k - n] == s[k];
    }
    assert r != "" ==> r[m - 1] == s[m - 1];
  }

  /** Trimming white space off both sides of a trimmed string gives that string back. */
  lemma {:induction false} TrimPadded(w1: string, q: string, w2: string)
    requires AllSpace(w1) && AllSpace(w2) && Trimmed(q)
    ensures Trim(w1 + q + w2) == q
  {
    var s := w1 + q + w2;
    if q == "" {
      assert AllSpace(s[..|s|]) by {
        forall k | 0 <= k < |s| ensures IsJsSpace(s[..|s|][k]) {
          if k < |w1| { assert s[k] == w1[k]; } else { assert s[k] == w2[k - |w1|]; }
        }
      }
      TrimStartAt(s, |s|);
      assert TrimStart(s) == "";
    } else {
      assert s[..|w1|] == w1;
      assert s[|w1|] == q[0];
      TrimStartAt(s, |w1|);
      var t := s[|w1|..];
      assert t == q + w2;
      assert t[|q|..] == w2;
      assert t[|q| - 1] == q[|q| - 1];
      TrimEndAt(t, |q|);
      assert t[..|q|] == q;
    }
  }

  predicate StartsWith(s: string, prefix: string) {
    |prefix| <= |s| && s[..|prefix|] == prefix
  }

  /** Appending to a string keeps every prefix it already had. */
  lemma StartsWithAppend(s: string, prefix: string, more: string)
    requires StartsWith(s, prefix)
    ensures StartsWith(s + more, prefix)
  {
    assert (s + more)[..|prefix|] == s[..|prefix|];
  }

  /** `pattern` occurs in `s` at index `i`. */
  predicate MatchesAt(s: string, pattern: string, i: nat) {
    i + |pattern| <= |s| && s[i..i + |pattern|] == pattern
  }

  /** `i` is where `pattern` first occurs in `s`. */
  predicate FirstMatch(s: string, pattern: string, i: nat) {
    MatchesAt(s, pattern, i) && forall k | 0 <= k < i :: !MatchesAt(s, pattern, k)
  }

  /** `indexOf(pattern, from)`: the first index at or after `from` where `pattern` occurs. */
  function IndexOfFrom(s: string, pattern: string, from: nat): Option<nat>
    decreases |s| - from
  {
    if from + |pattern| > |s| then None
    else if s[from..from + |pattern|] == pattern then Some(from)
    else IndexOfFrom(s, pattern, from + 1)
  }

  /**
   * The index found is a match at or after `from` and the first one there, and
   * no match at all is found exactly when there is none.
   */
  lemma {:induction false} IndexOfFromFirst(s: string, pattern: string, from: nat)
    ensures var r := IndexOfFrom(s, pattern, from);
            r.Some? ==> from <= r.value && MatchesAt(s, pattern, r.value) &&
                        forall k | from <= k < r.value :: !MatchesAt(s, pattern, k)
    ensures IndexOfFrom(s, pattern, from).None? <==> forall k | from <= k :: !MatchesAt(s, pattern, k)
    decreases |s| - from
  {
    if from + |pattern| > |s| {
      assert forall k | from <= k :: !MatchesAt(s, pattern, k);
    } else if s[from..from + |pattern|] == pattern {
      assert MatchesAt(s, pattern, from);
    } else {
      assert !MatchesAt(s, pattern, from);
      IndexOfFromFirst(s, pattern, from + 1);
      assert IndexOfFrom(s, pattern, from) == IndexOfFrom(s, pattern, from + 1);
    }
  }

  /** `indexOf(pattern)`: the first index where `pattern` occurs, None when it occurs nowhere. */
  function IndexOf(s: string, pattern: string): (r: Option<nat>)
    ensures r.Some? ==> MatchesAt(s, pattern, r.value) && forall k | 0 <= k < r.value :: !MatchesAt(s, pattern, k)
    ensures r.None? <==> forall k: nat :: !MatchesAt(s, pattern, k)
  {
    IndexOfFromFirst(s, pattern, 0);
    IndexOfFrom(s, pattern, 0)
  }

  /** `includes`. */
  predicate Includes(s: string, pattern: string) {
    IndexOf(s, pattern).Some?
  }

  /** A string includes every piece it is built around. */
  lemma IncludesPiece(before: string, pattern: string, after: string)
    ensures Includes(before + pattern + after, pattern)
  {
    var s := before + pattern + after;
    assert s[|before|..|before| + |pattern|] == pattern;
    assert MatchesAt(s, pattern, |before|);
  }

  /** What a string includes, any longer string ending with it includes too. */
  lemma IncludesSuffix(before: string, s: string, pattern: string)
    requires Includes(s, pattern)
    ensures Includes(before + s, pattern)
  {
    var i := IndexOf(s, pattern).value;
    assert (before + s)[|before| + i..|before| + i + |pattern|] == s[i..i + |pattern|];
    assert MatchesAt(before + s, pattern, |before| + i);
  }

  /**
   * The replacement text of `replace` for one match (GetSubstitution, section
   * 22.1.3.19.1 of ECMA-262): `$$` is `$`, `$&` the matched text, `` $` `` the
   * text before the match and `$'` the text after it. A string pattern has no
   * capture groups, so `$1` or `$<` and any other `$` stay as written.
   */
  function Substitution(template: string, matched: string, before: string, after: string): string
    decreases |template|
  {
    if template == [] then ""
    else if template[0] == '$' && |template| >= 2 && template[1] == '$' then
      "$" + Substitution(template[2..], matched, before, after)
    else if template[0] == '$' && |template| >= 2 && template[1] == '&' then
      matched + Substitution(template[2..], matched, before, after)
    else if template[0] == '$' && |template| >= 2 && template[1] == '`' then
      before + Substitution(template[2..], matched, before, after)
    else if template[0] == '$' && |template| >= 2 && template[1] == '\'' then
      after + Substitution(template[2..], matched, before, after)
    else [template[0]] + Substitution(template[1..], matched, before, after)
  }

  /** A replacement without `$` is inserted as written. */
  lemma {:induction false} SubstitutionPlain(template: string, matched: string, before: string, after: string)
    requires '$' !in template
    ensures Substitution(template, matched, before, after) == template
    decreases |template|
  {
    if template != [] {
      assert template[0] != '$';
      assert '$' !in template[1..] by {
        forall k | 0 <= k < |template[1..]| ensures template[1..][k] != '$' { assert template[1..][k] == template[k + 1]; }
      }
      SubstitutionPlain(template[1..], matched, before, after);
      assert template == [template[0]] + template[1..];
    }
  }

  /** A leading character other than `$` is copied. */
  lemma SubstitutionCons(c: char, template: string, matched: string, before: string, after: string)
    requires c != '$'
    ensures Substitution([c] + template, matched, before, after) == [c] + Substitution(template, matched, before, after)
  {
    assert ([c] + template)[1..] == template;
  }

  /** `$$` in a replacement becomes a single `$`, and `$&` the matched text. */
  lemma SubstitutionDollars(matched: string, before: string, after: string)
    ensures Substitution("$$", matched, before, after) == "$"
    ensures Substitution("$&", matched, before, after) == matched
    ensures Substitution("$1", matched, before, after) == "$1"
  {
    assert "$$"[2..] == [] && "$&"[2..] == [] && "$1"[1..] == "1" && "1"[1..] == [];
  }

  /** The replacement `@VIP$$` gives `@VIP$`. */
  lemma SubstitutionDoubledDollar(matched: string, after: string)
    ensures Substitution("@VIP$$", matched, "", after) == "@VIP$"
  {
    SubstitutionDollars(matched, "", after);
    assert "@VIP$$" == ['@'] + (['V'] + (['I'] + (['P'] + "$$")));
    SubstitutionCons('P', "$$", matched, "", after);
    SubstitutionCons('I', ['P'] + "$$", matched, "", after);
    SubstitutionCons('V', ['I'] + (['P'] + "$$"), matched, "", after);
    SubstitutionCons('@', ['V'] + (['I'] + (['P'] + "$$")), matched, "", after);
    assert ['@'] + (['V'] + (['I'] + (['P'] + "$"))) == "@VIP$";
  }

  /** The replacement `@a$&b` puts the matched text between `@a` and `b`. */
  lemma SubstitutionMatchedText(matched: string, after: string)
    ensures Substitution("@a$&b", matched, "", after) == "@a" + matched + "b"
  {
    var tail := "$&b";
    assert tail[0] == '$' && tail[1] == '&' && tail[2..] == "b";
    assert Substitution("b", matched, "", after) == "b" by {
      SubstitutionCons('b', "", matched, "", after);
      assert ['b'] + "" == "b";
    }
    assert Substitution(tail, matched, "", after) == matched + "b";
    assert "@a$&b" == ['@'] + (['a'] + tail);
    SubstitutionCons('a', tail, matched, "", after);
    SubstitutionCons('@', ['a'] + tail, matched, "", after);
  }

  /**
   * `replace` with a string pattern: only the first occurrence is replaced,
   * by the replacement with its `$` patterns substituted.
   */
  function ReplaceFirst(s: string, pattern: string, replacement: string): (r: string)
    ensures !Includes(s, pattern) ==> r == s
    ensures forall i: nat | FirstMatch(s, pattern, i) ::
              r == s[..i] + Substitution(replacement, pattern, s[..i], s[i + |pattern|..]) + s[i + |pattern|..]
  {
    match IndexOf(s, pattern)
    case None => s
    case Some(i) => s[..i] + Substitution(replacement, pattern, s[..i], s[i + |pattern|..]) + s[i + |pattern|..]
  }

  /**
   * A string that begins with the pattern has that occurrence replaced: by the
   * replacement as written when it holds no `$`.
   */
  lemma ReplaceFirstAtStart(pattern: string, rest: string, replacement: string)
    ensures ReplaceFirst(pattern + rest, pattern, replacement) == Substitution(replacement, pattern, "", rest) + rest
    ensures '$' !in replacement ==> ReplaceFirst(pattern + rest, pattern, replacement) == replacement + rest
  {
    var s := pattern + rest;
    assert FirstMatch(s, pattern, 0) by { assert s[0..|pattern|] == pattern; }
    assert s[|pattern|..] == rest && s[..0] == "";
    var sub := Substitution(replacement, pattern, "", rest);
    assert ReplaceFirst(s, pattern, replacement) == "" + sub + rest;
    assert "" + sub == sub;
    if '$' !in replacement {
      SubstitutionPlain(replacement, pattern, "", rest);
    }
  }

  /** `Array.prototype.join`. */
  function Join(xs: seq<string>, sep: string): string
    decreases |xs|
  {
    if |xs| == 0 then "" else if |xs| == 1 then xs[0] else xs[0] + sep + Join(xs[1..], sep)
  }

  /** A join includes every string it joins. */
  lemma {:induction false} JoinIncludes(xs: seq<string>, sep: string)
    ensures forall k | 0 <= k < |xs| :: Includes(Join(xs, sep), xs[k])
    decreases |xs|
  {
    if |xs| == 1 {
      assert xs[0] == [] + xs[0] + [];
      IncludesPiece([], xs[0], []);
    } else if |xs| > 1 {
      var rest := Join(xs[1..], sep);
      IncludesPiece([], xs[0], sep + rest);
      assert xs[0] + sep + rest == [] + xs[0] + (sep + rest);
      JoinIncludes(xs[1..], sep);
      JoinIncludesRest(xs[0] + sep, rest, xs[1..]);
      assert forall k | 1 <= k < |xs| :: xs[k] == xs[1..][k - 1];
    }
  }

  /** Each string a join's tail includes, the whole join includes. */
  lemma JoinIncludesRest(head: string, rest: string, tail: seq<string>)
    requires forall k | 0 <= k < |tail| :: Includes(rest, tail[k])
    ensures forall k | 0 <= k < |tail| :: Includes(head + rest, tail[k])
  {
    forall k | 0 <= k < |tail| ensures Includes(head + rest, tail[k]) {
      IncludesSuffix(head, rest, tail[k]);
    }
  }

  /** With a non-empty separator, a join is empty exactly when it joins nothing or one empty string. */
  lemma JoinEmptyIff(xs: seq<string>, sep: string)
    requires sep != ""
    ensures Join(xs, sep) == "" <==> |xs| == 0 || (|xs| == 1 && xs[0] == "")
  {
    if |xs| >= 2 {
      assert |Join(xs, sep)| >= |sep|;
    }
  }

  /** Joining one more string appends the separator and that string. */
  lemma {:induction false} JoinSnoc(xs: seq<string>, x: string, sep: string)
    ensures Join(xs + [x], sep) == if xs == [] then x else Join(xs, sep) + sep + x
    decreases |xs|
  {
    if |xs| == 0 {
      assert xs + [x] == [x];
    } else if |xs| == 1 {
      assert (xs + [x])[1..] == [x];
    } else {
      assert (xs + [x])[1..] == xs[1..] + [x];
      JoinSnoc(xs[1..], x, sep);
    }
  }

  function LowerChar(c: char): char {
    if 'A' <= c <= 'Z' then (c as int + 32) as char else c
  }

  /** `toLowerCase`, restricted to the ASCII letters. */
  function ToLowerAscii(s: string): (r: string)
    ensures |r| == |s|
    ensures forall k | 0 <= k < |s| :: r[k] == LowerChar(s[k])
  {
    seq(|s|, k requires 0 <= k < |s| => LowerChar(s[k]))
  }

  function DigitChar(d: nat): char
    requires d < 10
  {
    ('0' as int + d) as char
  }

  /** `String(n)` for a non-negative integer: its decimal digits without leading zeros. */
  function NatToString(n: nat): (r: string)
    ensures r != ""
    ensures forall k | 0 <= k < |r| :: '0' <= r[k] <= '9'
  {
    if n < 10 then [DigitChar(n)] else NatToString(n / 10) + [DigitChar(n % 10)]
  }

  predicate AllDigits(s: string) {
    forall k | 0 <= k < |s| :: '0' <= s[k] <= '9'
  }

  /** The number a string of decimal digits denotes, the last digit the least significant. */
  function DigitsValue(s: string): nat
    requires AllDigits(s)
  {
    if s == [] then 0 else DigitsValue(s[..|s| - 1]) * 10 + (s[|s| - 1] as int - '0' as int)
  }

  /** Reading back the digits `NatToString` writes gives the number. */
  lemma {:induction false} NatToStringValue(n: nat)
    ensures AllDigits(NatToString(n)) && DigitsValue(NatToString(n)) == n
  {
    var s := NatToString(n);
    if n >= 10 {
      NatToStringValue(n / 10);
      assert s[..|s| - 1] == NatToString(n / 10);
    }
  }
}
