/**
  The JavaScript string operations the tools rely on, as functions on
  `seq<char>`: `split` on a one-character separator, `join`, `includes`,
  `indexOf`, `trim`, `replace` with a string pattern, decimal rendering and
  `parseInt`. A character is a Unicode scalar value; for text inside the
  Basic Multilingual Plane that is one UTF-16 code unit, as in JavaScript.
*/
module Text {
  import opened Wrappers

  /** ECMAScript WhiteSpace and LineTerminator: what `\s` matches and what `trim` removes. */
  predicate IsSpace(c: char) {
    c == '\t' || c == '\n' || c == '\U{B}' || c == '\U{C}' || c == '\r' || c == ' '
    || c == '\U{A0}' || c == '\U{1680}' || ('\U{2000}' <= c <= '\U{200A}')
    || c == '\U{2028}' || c == '\U{2029}' || c == '\U{202F}' || c == '\U{205F}'
    || c == '\U{3000}' || c == '\U{FEFF}'
  }

  /** ECMAScript LineTerminator: where a multiline `^` matches and what `.` refuses. */
  predicate IsLineTerminator(c: char) {
    c == '\n' || c == '\r' || c == '\U{2028}' || c == '\U{2029}'
  }

  lemma LineTerminatorIsSpace(c: char)
    ensures IsLineTerminator(c) ==> IsSpace(c)
  {
  }

  // ---------------------------------------------------------------------------
  // split and join

  /** `s.split(sep)` for a one-character separator: the maximal pieces between separators. */
  function Split(s: string, sep: char): (r: seq<string>)
    ensures |r| >= 1
    ensures forall i :: 0 <= i < |r| ==> sep !in r[i]
    decreases |s|
  {
    if |s| == 0 then [""]
    else
      var rest := Split(s[1..], sep);
      if s[0] == sep then [""] + rest
      else [[s[0]] + rest[0]] + rest[1..]
  }

  /** `xs.join(sep)`. */
  function Join(xs: seq<string>, sep: string): string
    decreases |xs|
  {
    if |xs| == 0 then ""
    else if |xs| == 1 then xs[0]
    else xs[0] + sep + Join(xs[1..], sep)
  }

  lemma JoinCons(x: string, xs: seq<string>, sep: string)
    requires |xs| >= 1
    ensures Join([x] + xs, sep) == x + sep + Join(xs, sep)
  {
    assert ([x] + xs)[1..] == xs;
  }

  /** Joining the pieces of a split with the separator gives the original string back. */
  lemma {:induction false} JoinSplit(s: string, sep: char)
    ensures Join(Split(s, sep), [sep]) == s
    decreases |s|
  {
    if |s| > 0 {
      var rest := Split(s[1..], sep);
      JoinSplit(s[1..], sep);
      if s[0] == sep {
        JoinCons("", rest, [sep]);
      } else if |rest| == 1 {
        assert Split(s, sep) == [[s[0]] + rest[0]];
      } else {
        JoinCons(rest[0], rest[1..], [sep]);
        assert [rest[0]] + rest[1..] == rest;
        JoinCons([s[0]] + rest[0], rest[1..], [sep]);
        assert Split(s, sep) == [[s[0]] + rest[0]] + rest[1..];
      }
    }
  }

  /** A join starts with the first piece's first character. */
  lemma JoinHead(xs: seq<string>, sep: string)
    requires |xs| >= 1 && |xs[0]| >= 1
    ensures |Join(xs, sep)| >= 1 && Join(xs, sep)[0] == xs[0][0]
  {
    if |xs| > 1 {
      assert Join(xs, sep) == xs[0] + sep + Join(xs[1..], sep);
    }
  }

  /** A string free of the separator splits into itself. */
  lemma {:induction false} SplitNoSep(a: string, sep: char)
    requires sep !in a
    ensures Split(a, sep) == [a]
    decreases |a|
  {
    if |a| > 0 {
      assert a[0] != sep;
      SplitNoSep(a[1..], sep);
      assert [a[0]] + a[1..] == a;
    }
  }

  /** Splitting at the first separator peels off the piece before it. */
  lemma {:induction false} SplitAtSep(a: string, sep: char, b: string)
    requires sep !in a
    ensures Split(a + [sep] + b, sep) == [a] + Split(b, sep)
    decreases |a|
  {
    var s := a + [sep] + b;
    if |a| == 0 {
      assert s[0] == sep && s[1..] == b;
    } else {
      assert s[0] == a[0] && a[0] != sep;
      assert s[1..] == a[1..] + [sep] + b;
      SplitAtSep(a[1..], sep, b);
      assert [a[0]] + a[1..] == a;
    }
  }

  /** Splitting a join of separator-free pieces gives the pieces back. */
  lemma {:induction false} SplitJoin(xs: seq<string>, sep: char)
    requires |xs| >= 1
    requires forall i :: 0 <= i < |xs| ==> sep !in xs[i]
    ensures Split(Join(xs, [sep]), sep) == xs
    decreases |xs|
  {
    if |xs| == 1 {
      SplitNoSep(xs[0], sep);
    } else {
      SplitJoin(xs[1..], sep);
      SplitAtSep(xs[0], sep, Join(xs[1..], [sep]));
      assert [xs[0]] + xs[1..] == xs;
    }
  }

  /**
    What `const [head, ...rest] = s.split(sep)` together with
    `rest.join(sep)` extracts: the text before the first separator, and
    everything after it with later separators kept.
  */
  lemma SplitHeadTail(s: string, sep: char)
    ensures var r := Split(s, sep);
      && sep !in r[0]
      && (sep !in s ==> r[0] == s && Join(r[1..], [sep]) == "")
      && (sep in s ==> s == r[0] + [sep] + Join(r[1..], [sep]))
  {
    var r := Split(s, sep);
    JoinSplit(s, sep);
    if sep !in s {
      SplitNoSep(s, sep);
    } else {
      JoinCons(r[0], r[1..], [sep]);
      assert [r[0]] + r[1..] == r;
    }
  }

  /** A separator between two texts: the pieces of the first, then the pieces of the second. */
  lemma {:induction false} SplitAppend(a: string, sep: char, b: string)
    ensures Split(a + [sep] + b, sep) == Split(a, sep) + Split(b, sep)
    decreases |a|
  {
    var s := a + [sep] + b;
    if |a| == 0 {
      assert s[0] == sep && s[1..] == b;
    } else {
      assert s[0] == a[0];
      assert s[1..] == a[1..] + [sep] + b;
      SplitAppend(a[1..], sep, b);
    }
  }

  // ---------------------------------------------------------------------------
  // searching

  /** `sub` occurs in `s` starting at index `i`. */
  predicate OccursAt(s: string, sub: string, i: nat) {
    i + |sub| <= |s| && s[i..i + |sub|] == sub
  }

  predicate StartsWith(s: string, prefix: string) {
    OccursAt(s, prefix, 0)
  }

  /** The first index at or after `from` where `sub` occurs (`s.indexOf(sub, from)`). */
  function IndexOfFrom(s: string, sub: string, from: nat): (r: Option<nat>)
    ensures r.Some? ==> from <= r.value && OccursAt(s, sub, r.value)
    ensures r.Some? ==> forall j :: from <= j < r.value ==> !OccursAt(s, sub, j)
    ensures r.None? ==> forall j :: from <= j ==> !OccursAt(s, sub, j)
    decreases |s| - from
  {
    if from + |sub| > |s| then None
    else if OccursAt(s, sub, from) then Some(from)
    else IndexOfFrom(s, sub, from + 1)
  }

  function IndexOf(s: string, sub: string): Option<nat> {
    IndexOfFrom(s, sub, 0)
  }

  /** `s.includes(sub)`. */
  predicate Contains(s: string, sub: string) {
    IndexOf(s, sub).Some?
  }

  lemma ContainsAt(s: string, sub: string, i: nat)
    requires OccursAt(s, sub, i)
    ensures Contains(s, sub)
  {
  }

  lemma NotContains(s: string, sub: string, j: nat)
    requires !Contains(s, sub)
    ensures !OccursAt(s, sub, j)
  {
  }

  /** A string that lacks one of the characters of `sub` cannot contain `sub`. */
  lemma MissingCharNotContained(s: string, sub: string, k: nat)
    requires k < |sub| && sub[k] !in s
    ensures !Contains(s, sub)
  {

  }

  lemma ContainsMiddle(a: string, m: string, b: string)
    ensures Contains(a + m + b, m)
  {
    var s := a + m + b;
    assert s[|a|..|a| + |m|] == m;
    ContainsAt(s, m, |a|);
  }

  lemma ContainsSelf(s: string)
    ensures Contains(s, s)
  {
    assert s[0..|s|] == s;
    ContainsAt(s, s, 0);
  }

  /** What a string contains, the string with more after it contains too. */
  lemma ContainsLeft(s: string, sub: string, b: string)
    requires Contains(s, sub)
    ensures Contains(s + b, sub)
  {
    var i := IndexOf(s, sub).value;
    assert (s + b)[i..i + |sub|] == s[i..i + |sub|];
    ContainsAt(s + b, sub, i);
  }

  /** What a string contains, the string with more before it contains too. */
  lemma ContainsRight(a: string, s: string, sub: string)
    requires Contains(s, sub)
    ensures Contains(a + s, sub)
  {
    var i := IndexOf(s, sub).value;
    assert (a + s)[|a| + i..|a| + i + |sub|] == s[i..i + |sub|];
    ContainsAt(a + s, sub, |a| + i);
  }

  /** Every piece of a join is contained in it. */
  lemma {:induction false} JoinContains(xs: seq<string>, sep: string, i: nat)
    requires i < |xs|
    ensures Contains(Join(xs, sep), xs[i])
    decreases |xs|
  {
    if |xs| == 1 {
      ContainsSelf(xs[0]);
    } else if i == 0 {
      ContainsSelf(xs[0]);
      ContainsLeft(xs[0], xs[0], sep);
      ContainsLeft(xs[0] + sep, xs[0], Join(xs[1..], sep));
    } else {
      JoinContains(xs[1..], sep, i - 1);
      ContainsRight(xs[0] + sep, Join(xs[1..], sep), xs[i]);
    }
  }

  /** With a non-empty separator, a join is empty only for no piece or one empty piece. */
  lemma JoinEmpty(xs: seq<string>, sep: string)
    requires sep != ""
    ensures Join(xs, sep) == "" <==> |xs| == 0 || (|xs| == 1 && xs[0] == "")
  {
    if |xs| > 1 {
      assert |Join(xs, sep)| >= |sep|;
    }
  }

  /** What a string contains, any string around it contains too. */
  lemma ContainsExtend(a: string, s: string, b: string, sub: string)
    requires Contains(s, sub)
    ensures Contains(a + s + b, sub)
  {
    var i := IndexOf(s, sub).value;
    var t := a + s + b;
    assert t[|a| + i..|a| + i + |sub|] == s[i..i + |sub|];
    ContainsAt(t, sub, |a| + i);
  }

  /** An occurrence inside the slice `s[a..b]` is an occurrence in the slice. */
  lemma OccursWithin(s: string, sub: string, j: nat, a: nat, b: nat)
    requires a <= j && j + |sub| <= b <= |s|
    requires OccursAt(s, sub, j)
    ensures OccursAt(s[a..b], sub, j - a)
  {
    var t := s[a..b];
    assert forall i :: 0 <= i < |t| ==> t[i] == s[a + i];
    assert t[j - a..j - a + |sub|] == s[j..j + |sub|];
  }

  /** An occurrence cannot cover a character that `sub` lacks. */
  lemma CharBreaks(s: string, sub: string, j: nat, q: nat)
    requires j <= q < j + |sub| && q < |s| && s[q] !in sub
    ensures !OccursAt(s, sub, j)
  {
  }

  /** An occurrence with none before it is the one `indexOf` finds. */
  lemma FirstOccurrence(s: string, sub: string, k: nat)
    requires OccursAt(s, sub, k)
    requires forall j :: 0 <= j < k ==> !OccursAt(s, sub, j)
    ensures IndexOf(s, sub) == Some(k)
  {
  }

  // ---------------------------------------------------------------------------
  // trimming

  /** `s.trimStart()`: drops the leading run of whitespace. */
  function TrimStart(s: string): (r: string)
    ensures |r| <= |s| && r == s[|s| - |r|..]
    ensures r == "" || !IsSpace(r[0])
    ensures forall i :: 0 <= i < |s| - |r| ==> IsSpace(s[i])
    decreases |s|
  {
    if |s| > 0 && IsSpace(s[0]) then TrimStart(s[1..]) else s
  }

  /** `s.trimEnd()`: drops the trailing run of whitespace. */
  function TrimEnd(s: string): (r: string)
    ensures |r| <= |s| && r == s[..|r|]
    ensures r == "" || !IsSpace(r[|r| - 1])
    ensures forall i :: |r| <= i < |s| ==> IsSpace(s[i])
    decreases |s|
  {
    if |s| > 0 && IsSpace(s[|s| - 1]) then TrimEnd(s[..|s| - 1]) else s
  }

  /** `s.trim()`: the text left when whitespace is taken off both ends. */
  function Trim(s: string): (r: string)
    ensures |TrimStart(s)| >= |r|
    ensures r == s[|s| - |TrimStart(s)|..|s| - |TrimStart(s)| + |r|]
    ensures forall i :: 0 <= i < |s| - |TrimStart(s)| ==> IsSpace(s[i])
    ensures forall i :: |s| - |TrimStart(s)| + |r| <= i < |s| ==> IsSpace(s[i])
    ensures r == "" || (!IsSpace(r[0]) && !IsSpace(r[|r| - 1]))
  {
    var t := TrimStart(s);
    var r := TrimEnd(t);
    TrimWithin(s, t, r);
    r
  }

  lemma TrimWithin(s: string, t: string, r: string)
    requires |t| <= |s| && t == s[|s| - |t|..]
    requires |r| <= |t| && r == t[..|r|]
    requires forall i :: |r| <= i < |t| ==> IsSpace(t[i])
    ensures r == s[|s| - |t|..|s| - |t| + |r|]
    ensures forall i :: |s| - |t| + |r| <= i < |s| ==> IsSpace(s[i])
  {
    var a := |s| - |t|;
    forall i | a + |r| <= i < |s| ensures IsSpace(s[i]) {
      assert s[i] == t[i - a];
    }
  }

  /** Whitespace added on either side does not survive `trim`. */
  lemma {:induction false} TrimPadded(w1: string, x: string, w2: string)
    requires forall i :: 0 <= i < |w1| ==> IsSpace(w1[i])
    requires forall i :: 0 <= i < |w2| ==> IsSpace(w2[i])
    ensures Trim(w1 + x + w2) == Trim(x)
  {
    TrimStartPadded(w1, x + w2);
    assert w1 + x + w2 == w1 + (x + w2);
    TrimStartAppend(x, w2);
    if TrimStart(x) != "" {
      TrimEndPadded(TrimStart(x), w2);
    }
  }

  /** Whitespace after a text does not survive trimming. */
  lemma TrimSpaceAfter(x: string, w: string)
    requires forall i :: 0 <= i < |w| ==> IsSpace(w[i])
    ensures Trim(x + w) == Trim(x)
  {
    TrimPadded("", x, w);
    assert "" + x + w == x + w;
  }

  lemma {:induction false} TrimStartPadded(w: string, x: string)
    requires forall i :: 0 <= i < |w| ==> IsSpace(w[i])
    ensures TrimStart(w + x) == TrimStart(x)
    decreases |w|
  {
    if |w| > 0 {
      assert (w + x)[0] == w[0];
      assert (w + x)[1..] == w[1..] + x;
      TrimStartPadded(w[1..], x);
    } else {
      assert w + x == x;
    }
  }

  /** Trimming the start of `x + w` reaches into `w` only when `x` is all whitespace. */
  lemma {:induction false} TrimStartAppend(x: string, w: string)
    requires forall i :: 0 <= i < |w| ==> IsSpace(w[i])
    ensures TrimStart(x) != "" ==> TrimStart(x + w) == TrimStart(x) + w
    ensures TrimStart(x) == "" ==> TrimStart(x + w) == ""
    decreases |x|
  {
    if |x| == 0 {
      TrimStartAllSpace(w);
      assert x + w == w;
    } else if IsSpace(x[0]) {
      assert (x + w)[1..] == x[1..] + w;
      TrimStartAppend(x[1..], w);
    }
  }

  lemma {:induction false} TrimStartAllSpace(w: string)
    requires forall i :: 0 <= i < |w| ==> IsSpace(w[i])
    ensures TrimStart(w) == ""
    decreases |w|
  {
    if |w| > 0 {
      TrimStartAllSpace(w[1..]);
    }
  }

  lemma {:induction false} TrimEndPadded(x: string, w: string)
    requires forall i :: 0 <= i < |w| ==> IsSpace(w[i])
    ensures TrimEnd(x + w) == TrimEnd(x)
    decreases |w|
  {
    if |w| > 0 {
      var s := x + w;
      assert s[|s| - 1] == w[|w| - 1];
      assert s[..|s| - 1] == x + w[..|w| - 1];
      TrimEndPadded(x, w[..|w| - 1]);
    } else {
      assert x + w == x;
    }
  }

  // ---------------------------------------------------------------------------
  // case and whitespace rewriting

  /** `toLowerCase` restricted to ASCII letters; other characters are kept. */
  function LowerChar(c: char): char {
    if 'A' <= c <= 'Z' then (c as int + 32) as char else c
  }

  /** `toUpperCase` restricted to ASCII letters; other characters are kept. */
  function UpperChar(c: char): char {
    if 'a' <= c <= 'z' then (c as int - 32) as char else c
  }

  function Lower(s: string): (r: string)
    ensures |r| == |s| && forall i :: 0 <= i < |s| ==> r[i] == LowerChar(s[i])
  {
    seq(|s|, i requires 0 <= i < |s| => LowerChar(s[i]))
  }

  function Upper(s: string): (r: string)
    ensures |r| == |s| && forall i :: 0 <= i < |s| ==> r[i] == UpperChar(s[i])
  {
    seq(|s|, i requires 0 <= i < |s| => UpperChar(s[i]))
  }

  /**
    `s.replace(/\s+/g, rep)`: every maximal run of whitespace becomes one copy
    of `rep`.
  */
  function ReplaceSpaceRuns(s: string, rep: string): (r: string)
    ensures (forall i :: 0 <= i < |rep| ==> !IsSpace(rep[i])) ==> forall i :: 0 <= i < |r| ==> !IsSpace(r[i])
    ensures (forall i :: 0 <= i < |s| ==> !IsSpace(s[i])) ==> r == s
    decreases |s|
  {
    if |s| == 0 then ""
    else if IsSpace(s[0]) then
      var t := TrimStart(s[1..]);
      rep + ReplaceSpaceRuns(t, rep)
    else [s[0]] + ReplaceSpaceRuns(s[1..], rep)
  }

  // ---------------------------------------------------------------------------
  // replace with a string pattern

  /**
    The replacement text of `String.prototype.replace` for a string pattern
    (GetSubstitution of ECMA-262 with no capture groups): `$$` is `$`, `$&`
    the matched text, `` $` `` the text before the match, `$'` the text after
    it; every other character, `$` included, stands for itself.
  */
  function Substitution(t: string, matched: string, before: string, after: string): string
    decreases |t|
  {
    if |t| == 0 then ""
    else if t[0] == '$' && |t| >= 2 && t[1] == '$' then "$" + Substitution(t[2..], matched, before, after)
    else if t[0] == '$' && |t| >= 2 && t[1] == '&' then matched + Substitution(t[2..], matched, before, after)
    else if t[0] == '$' && |t| >= 2 && t[1] == '`' then before + Substitution(t[2..], matched, before, after)
    else if t[0] == '$' && |t| >= 2 && t[1] == '\'' then after + Substitution(t[2..], matched, before, after)
    else [t[0]] + Substitution(t[1..], matched, before, after)
  }

  /** The characters that make a `$` before them the start of a pattern. */
  predicate IsPatternChar(c: char) {
    c == '$' || c == '&' || c == '`' || c == '\''
  }

  /** No `$$`, `$&`, `` $` `` or `$'` anywhere in `t`. */
  predicate NoPattern(t: string) {
    forall i :: 0 <= i < |t| - 1 && t[i] == '$' ==> !IsPatternChar(t[i + 1])
  }

  /** A text without `$` has no pattern. */
  lemma NoDollarNoPattern(t: string)
    requires '$' !in t
    ensures NoPattern(t)
  {
  }

  /** Two pattern-free texts stay pattern-free when no pattern forms where they meet. */
  lemma NoPatternConcat(a: string, b: string)
    requires NoPattern(a) && NoPattern(b)
    requires |a| == 0 || |b| == 0 || a[|a| - 1] != '$' || !IsPatternChar(b[0])
    ensures NoPattern(a + b)
  {
    var s := a + b;
    forall i | 0 <= i < |s| - 1 && s[i] == '$' ensures !IsPatternChar(s[i + 1]) {
      if i + 1 < |a| {
        assert s[i] == a[i] && s[i + 1] == a[i + 1];
      } else if i >= |a| {
        assert s[i] == b[i - |a|] && s[i + 1] == b[i - |a| + 1];
      } else {
        assert s[i] == a[|a| - 1] && s[i + 1] == b[0];
      }
    }
  }

  /** A replacement without a pattern is inserted as it is: a lone `$` stands for itself. */
  lemma {:induction false} SubstitutionPlain(t: string, matched: string, before: string, after: string)
    requires NoPattern(t)
    ensures Substitution(t, matched, before, after) == t
    decreases |t|
  {
    if |t| > 0 {
      assert |t| >= 2 && t[0] == '$' ==> !IsPatternChar(t[1]);
      assert NoPattern(t[1..]) by {
        forall i | 0 <= i < |t[1..]| - 1 && t[1..][i] == '$' ensures !IsPatternChar(t[1..][i + 1]) {
          assert t[i + 1] == '$';
        }
      }
      SubstitutionPlain(t[1..], matched, before, after);
      assert [t[0]] + t[1..] == t;
    }
  }

  /** `s.replace(pattern, rep)` with a string pattern: only the first occurrence is replaced. */
  function ReplaceFirst(s: string, pattern: string, rep: string): (r: string)
    ensures IndexOf(s, pattern).None? ==> r == s
    ensures IndexOf(s, pattern).Some? ==>
      var i := IndexOf(s, pattern).value;
      && (forall j :: 0 <= j < i ==> !OccursAt(s, pattern, j))
      && r == s[..i] + Substitution(rep, pattern, s[..i], s[i + |pattern|..]) + s[i + |pattern|..]
  {
    match IndexOf(s, pattern)
    case None => s
    case Some(i) => s[..i] + Substitution(rep, pattern, s[..i], s[i + |pattern|..]) + s[i + |pattern|..]
  }

  /** Replacing a pattern by itself changes nothing, as in the tsconfig alias key of the Next.js scaffold. */
  lemma ReplaceBySelf(s: string, pattern: string)
    requires NoPattern(pattern)
    ensures ReplaceFirst(s, pattern, pattern) == s
  {
    match IndexOf(s, pattern)
    case None =>
    case Some(i) =>
      SubstitutionPlain(pattern, pattern, s[..i], s[i + |pattern|..]);
      assert s[i..i + |pattern|] == pattern;
      assert s == s[..i] + s[i..i + |pattern|] + s[i + |pattern|..];
  }

  // ---------------------------------------------------------------------------
  // numbers as text

  predicate IsDigit(c: char) { '0' <= c <= '9' }

  predicate AllDigits(s: string) { forall i :: 0 <= i < |s| ==> IsDigit(s[i]) }

  function DigitChar(d: nat): char
    requires d < 10
  {
    (48 + d) as char
  }

  /** The decimal rendering of a natural number (template-literal `${n}` for integers ≥ 0). */
  function Decimal(n: nat): (r: string)
    ensures |r| >= 1 && AllDigits(r)
    ensures n >= 10 ==> r[0] != '0'
    decreases n
  {
    if n < 10 then [DigitChar(n)] else Decimal(n / 10) + [DigitChar(n % 10)]
  }

  /** The value of a string of decimal digits. */
  function DigitsValue(s: string): nat
    requires AllDigits(s)
    decreases |s|
  {
    if |s| == 0 then 0
    else DigitsValue(s[..|s| - 1]) * 10 + (s[|s| - 1] as int - 48)
  }

  /** Reading back a rendered number gives the number. */
  lemma {:induction false} DecimalValue(n: nat)
    ensures DigitsValue(Decimal(n)) == n
    decreases n
  {
    if n >= 10 {
      DecimalValue(n / 10);
      var d := Decimal(n);
      assert d[..|d| - 1] == Decimal(n / 10);
    }
  }

  /** Distinct numbers render differently, so array indices give distinct keys. */
  lemma DecimalInjective(m: nat, n: nat)
    requires Decimal(m) == Decimal(n)
    ensures m == n
  {
    DecimalValue(m);
    DecimalValue(n);
  }

  // ---------------------------------------------------------------------------
  // parseInt

  /** The value of `c` as a digit of a radix up to 36; 36 when it is no digit at all. */
  function DigitValue(c: char): (r: nat)
    ensures r <= 36
    ensures IsDigit(c) <==> r < 10
  {
    if '0' <= c <= '9' then c as int - 48
    else if 'a' <= c <= 'z' then c as int - 87
    else if 'A' <= c <= 'Z' then c as int - 55
    else 36
  }

  /** The length of the longest prefix of `s` made of digits of `radix`. */
  function DigitRun(s: string, radix: nat): (n: nat)
    ensures n <= |s|
    ensures forall i :: 0 <= i < n ==> DigitValue(s[i]) < radix
    ensures n < |s| ==> DigitValue(s[n]) >= radix
    decreases |s|
  {
    if |s| > 0 && DigitValue(s[0]) < radix then 1 + DigitRun(s[1..], radix) else 0
  }

  /** The value of a string of digits of `radix`, most significant first. */
  function RadixValue(s: string, radix: nat): nat
    requires forall i :: 0 <= i < |s| ==> DigitValue(s[i]) < radix
    decreases |s|
  {
    if |s| == 0 then 0 else RadixValue(s[..|s| - 1], radix) * radix + DigitValue(s[|s| - 1])
  }

  /** The digits after the sign: a `0x`/`0X` prefix selects radix 16; no digit at all is `NaN`. */
  function ParseUnsigned(u: string): (r: Option<nat>)
  {
    var hex := |u| >= 2 && u[0] == '0' && (u[1] == 'x' || u[1] == 'X');
    var radix := if hex then 16 else 10;
    var v := if hex then u[2..] else u;
    var n := DigitRun(v, radix);
    if n == 0 then None else Some(RadixValue(v[..n], radix))
  }

  /**
    `parseInt(s)` without a radix argument, `None` standing for `NaN`: leading
    whitespace is skipped, one sign is read, and then the digits; anything
    after them is ignored. (`-0` is 0 here.)
  */
  function ParseInt(s: string): (r: Option<int>)
  {
    ParseSigned(TrimStart(s))
  }

  /** `parseInt` once leading whitespace is gone: one optional sign, then the digits. */
  function ParseSigned(t: string): (r: Option<int>)
  {
    if |t| > 0 && t[0] == '-' then
      match ParseUnsigned(t[1..])
      case None => None
      case Some(m) => Some(0 - m)
    else if |t| > 0 && t[0] == '+' then
      match ParseUnsigned(t[1..])
      case None => None
      case Some(m) => Some(m as int)
    else
      match ParseUnsigned(t)
      case None => None
      case Some(m) => Some(m as int)
  }

  lemma {:induction false} RadixValueDecimal(s: string)
    requires AllDigits(s)
    ensures RadixValue(s, 10) == DigitsValue(s)
    decreases |s|
  {
    if |s| > 0 {
      RadixValueDecimal(s[..|s| - 1]);
    }
  }

  lemma {:induction false} DigitRunAll(d: string, rest: string, radix: nat)
    requires forall i :: 0 <= i < |d| ==> DigitValue(d[i]) < radix
    requires rest == [] || DigitValue(rest[0]) >= radix
    ensures DigitRun(d + rest, radix) == |d|
    decreases |d|
  {
    if |d| > 0 {
      assert (d + rest)[1..] == d[1..] + rest;
      DigitRunAll(d[1..], rest, radix);
    } else {
      assert d + rest == rest;
    }
  }

  lemma DigitNotSpace(c: char)
    requires IsDigit(c)
    ensures !IsSpace(c)
  {
  }

  lemma TrimStartNoSpace(x: string)
    requires |x| > 0 && !IsSpace(x[0])
    ensures TrimStart(x) == x
  {
  }

  /** Leading whitespace does not change what `parseInt` reads. */
  lemma ParseIntPadded(w: string, x: string)
    requires forall i :: 0 <= i < |w| ==> IsSpace(w[i])
    ensures ParseInt(w + x) == ParseInt(x)
  {
    TrimStartPadded(w, x);
  }

  lemma ParseUnsignedDecimal(n: nat, rest: string)
    requires rest == [] || (!IsDigit(rest[0]) && rest[0] != 'x' && rest[0] != 'X')
    ensures ParseUnsigned(Decimal(n) + rest) == Some(n)
  {
    var d := Decimal(n);
    assert forall i :: 0 <= i < |d| ==> DigitValue(d[i]) < 10;
    assert rest == [] || DigitValue(rest[0]) >= 10;
    DigitRunAll(d, rest, 10);
    assert (d + rest)[..|d|] == d;
    RadixValueDecimal(d);
    DecimalValue(n);
  }

  /**
    `parseInt` reads back a rendered number past leading whitespace and up to
    trailing text that is not a digit (and does not turn a leading `0` into a
    `0x` prefix).
  */
  lemma ParseIntDecimal(w: string, n: nat, rest: string)
    requires forall i :: 0 <= i < |w| ==> IsSpace(w[i])
    requires rest == [] || (!IsDigit(rest[0]) && rest[0] != 'x' && rest[0] != 'X')
    ensures ParseInt(w + Decimal(n) + rest) == Some(n as int)
  {
    ParseUnsignedDecimal(n, rest);
    ParseIntDigitsAt(w, Decimal(n), rest, n);
  }

  /** Past leading whitespace, text that starts with a digit is read unsigned. */
  lemma ParseIntDigitsAt(w: string, d: string, rest: string, n: nat)
    requires forall i :: 0 <= i < |w| ==> IsSpace(w[i])
    requires |d| > 0 && IsDigit(d[0])
    requires ParseUnsigned(d + rest) == Some(n)
    ensures ParseInt(w + d + rest) == Some(n as int)
  {
    var x := d + rest;
    assert x[0] == d[0];
    DigitNotSpace(x[0]);
    TrimStartNoSpace(x);
    ParseIntPadded(w, x);
    assert w + d + rest == w + x;
  }

  /** A minus sign in front of the digits negates the value. */
  lemma ParseIntNegative(n: nat, rest: string)
    requires rest == [] || (!IsDigit(rest[0]) && rest[0] != 'x' && rest[0] != 'X')
    ensures ParseInt("-" + Decimal(n) + rest) == Some(0 - n)
  {
    ParseUnsignedDecimal(n, rest);
    ParseIntMinus(Decimal(n), rest, n);
  }

  lemma ParseIntMinus(d: string, rest: string, n: nat)
    requires ParseUnsigned(d + rest) == Some(n)
    ensures ParseInt("-" + d + rest) == Some(0 - n)
  {
    var x := "-" + d + rest;
    SignTail("-", d, rest);
    TrimStartNoSpace(x);
    SignedMinus(x, n);
  }

  lemma SignTail(sign: string, d: string, rest: string)
    requires |sign| == 1
    ensures (sign + d + rest)[0] == sign[0] && (sign + d + rest)[1..] == d + rest
  {
  }

  lemma SignedMinus(x: string, n: nat)
    requires |x| > 0 && x[0] == '-' && ParseUnsigned(x[1..]) == Some(n)
    ensures ParseSigned(x) == Some(0 - n)
  {
  }

  lemma ParseIntZero()
    ensures ParseInt("0") == Some(0)
  {
    ParseIntDecimal("", 0, "");
    assert Decimal(0) == "0";
    assert "" + "0" + "" == "0";
  }

  lemma ParseIntHundred()
    ensures ParseInt("100") == Some(100)
  {
    TrimStartNoSpace("100");
    HundredDigits();
  }

  lemma HundredDigits()
    ensures ParseUnsigned("100") == Some(100)
  {
    DigitRunAll("100", "", 10);
    assert "100" + "" == "100" && "100"[..3] == "100";
    HundredValue();
  }

  lemma HundredValue()
    ensures RadixValue("100", 10) == 100
  {
    assert "100"[..2] == "10" && "10"[..1] == "1" && "1"[..0] == "";
    assert RadixValue("1", 10) == 1;
    assert RadixValue("10", 10) == 10;
  }

  /** A string with no digit after its whitespace and sign is `NaN`. */
  lemma ParseIntNaN(w: string, rest: string)
    requires forall i :: 0 <= i < |w| ==> IsSpace(w[i])
    requires rest == [] || (!IsSpace(rest[0]) && DigitValue(rest[0]) >= 10 && rest[0] != '-' && rest[0] != '+')
    ensures ParseInt(w + rest) == None
  {
    if rest == [] {
      TrimStartAllSpace(w);
      assert w + rest == w;
    } else {
      TrimStartPadded(w, rest);
    }
  }
}
