/** The handful of Python `str` operations the recall assistant relies on:
    `lower`, `strip`, `find`/`in`, `split(sep, 1)`, `split()`, `join`,
    `isdigit`/`int` and `str(int)`. Characters are code points; case
    folding and whitespace are the ASCII part of Python's definitions. */
module Strings {
  import opened Wrappers

  // ---------------------------------------------------------------------
  // Sequence steps the solver is handed explicitly

  lemma AppendAssoc<T>(a: seq<T>, b: seq<T>, c: seq<T>)
    ensures (a + b) + c == a + (b + c)
  {
  }

  lemma AfterPrefix<T>(a: seq<T>, b: seq<T>)
    ensures (a + b)[..|a|] == a && (a + b)[|a|..] == b
  {
  }

  lemma AppendSlices<T>(a: seq<T>, b: seq<T>, j: nat)
    requires j <= |b|
    ensures (a + b)[|a| + j..] == b[j..] && (a + b)[..|a| + j] == a + b[..j]
  {
  }

  lemma HeadTail<T>(s: seq<T>)
    requires s != []
    ensures s == [s[0]] + s[1..]
  {
  }

  // ---------------------------------------------------------------------
  // Character classes

  /** The ASCII characters Python's `str.isspace` (and so `split()`,
      `strip()` and the regex class `\s`) treats as whitespace. */
  predicate IsSpace(c: char) {
    c == ' ' || c == '\t' || c == '\n' || c == '\r' || c == '\U{0B}' || c == '\U{0C}'
    || ('\U{1C}' <= c <= '\U{1F}')
  }

  predicate IsQuote(c: char) {
    c == '"' || c == '\''
  }

  predicate IsUpper(c: char) {
    'A' <= c <= 'Z'
  }

  predicate IsDigit(c: char) {
    '0' <= c <= '9'
  }

  function LowerChar(c: char): (r: char)
    ensures !IsUpper(r)
    ensures !IsUpper(c) ==> r == c
  {
    if IsUpper(c) then (c as int + 32) as char else c
  }

  /** `s.lower()`. */
  function Lower(s: string): (r: string)
    ensures |r| == |s|
    ensures forall i :: 0 <= i < |s| ==> r[i] == LowerChar(s[i])
  {
    if s == [] then [] else [LowerChar(s[0])] + Lower(s[1..])
  }

  predicate NoUpper(s: string) {
    forall i :: 0 <= i < |s| ==> !IsUpper(s[i])
  }

  lemma LowerHasNoUpper(s: string)
    ensures NoUpper(Lower(s))
    ensures Lower(Lower(s)) == Lower(s)
  {
  }

  // ---------------------------------------------------------------------
  // strip()

  /** Drops the leading characters satisfying `Drop` (`lstrip`). Which
      class is dropped is chosen by `quotes`: whitespace or quote marks. */
  predicate Drop(c: char, quotes: bool) {
    if quotes then IsQuote(c) else IsSpace(c)
  }

  function TrimStart(s: string, quotes: bool): (r: string)
    ensures |r| <= |s| && r == s[|s| - |r|..]
    ensures forall k :: 0 <= k < |s| - |r| ==> Drop(s[k], quotes)
    ensures r == [] || !Drop(r[0], quotes)
  {
    if s != [] && Drop(s[0], quotes) then TrimStart(s[1..], quotes) else s
  }

  function TrimEnd(s: string, quotes: bool): (r: string)
    ensures |r| <= |s| && r == s[..|r|]
    ensures forall k :: |r| <= k < |s| ==> Drop(s[k], quotes)
    ensures r == [] || !Drop(r[|r| - 1], quotes)
  {
    if s != [] && Drop(s[|s| - 1], quotes) then TrimEnd(s[..|s| - 1], quotes) else s
  }

  /** `r` is what is left of `s` at offset `i` once the dropped
      characters are removed from both ends. */
  predicate Stripped(s: string, r: string, i: nat, quotes: bool) {
    && OccursAt(s, r, i)
    && (forall k :: 0 <= k < i ==> Drop(s[k], quotes))
    && (forall k :: i + |r| <= k < |s| ==> Drop(s[k], quotes))
  }

  /** `s.strip()` when `quotes` is false, `s.strip('"\'')` when it is true:
      the result is the slice of `s` left once the dropped characters are
      removed from both ends, and it neither starts nor ends with one. */
  function Strip(s: string, quotes: bool): (r: string)
    ensures r == [] || (!Drop(r[0], quotes) && !Drop(r[|r| - 1], quotes))
    ensures exists i: nat :: Stripped(s, r, i, quotes)
  {
    var t := TrimStart(s, quotes);
    var r := TrimEnd(t, quotes);
    TrimBoth(s, quotes);
    r
  }

  /** Trimming the start and then the end leaves a stripped slice. */
  lemma TrimBoth(s: string, quotes: bool)
    ensures Stripped(s, TrimEnd(TrimStart(s, quotes), quotes), |s| - |TrimStart(s, quotes)|, quotes)
  {
    var t := TrimStart(s, quotes);
    var r := TrimEnd(t, quotes);
    SliceOfTail(s, t, r, |s| - |t|);
    TailDropped(s, t, r, |s| - |t|, quotes);
  }

  lemma SliceOfTail(s: string, t: string, r: string, i: nat)
    requires i <= |s| && t == s[i..] && |r| <= |t| && r == t[..|r|]
    ensures OccursAt(s, r, i)
  {
    assert s[i..i + |r|] == s[i..][..|r|];
  }

  lemma TailDropped(s: string, t: string, r: string, i: nat, quotes: bool)
    requires i <= |s| && t == s[i..] && |r| <= |t|
    requires forall k :: |r| <= k < |t| ==> Drop(t[k], quotes)
    ensures forall k :: i + |r| <= k < |s| ==> Drop(s[k], quotes)
  {
    forall k | i + |r| <= k < |s| ensures Drop(s[k], quotes) {
      assert s[k] == t[k - i];
    }
  }

  /** `s.strip()` followed by `.strip('"\'')`, as every firm-name extraction
      of the assistant does. */
  function StripSpaceAndQuotes(s: string): (r: string)
    ensures r == [] || (!IsQuote(r[0]) && !IsQuote(r[|r| - 1]))
    ensures forall c :: c in r ==> c in s
  {
    var t := Strip(s, false);
    var r := Strip(t, true);
    StripChars(s, false);
    StripChars(t, true);
    r
  }

  /** Stripping only removes characters: whatever is left was in `s`. */
  lemma StripChars(s: string, quotes: bool)
    ensures forall c :: c in Strip(s, quotes) ==> c in s
  {
    var r := Strip(s, quotes);
    var i: nat :| OccursAt(s, r, i);
    OccursChars(s, r, i);
  }

  // ---------------------------------------------------------------------
  // Substring search

  predicate OccursAt(s: string, sub: string, i: nat) {
    i + |sub| <= |s| && s[i..i + |sub|] == sub
  }

  function FindFrom(s: string, sub: string, i: nat): (r: Option<nat>)
    requires i <= |s|
    decreases |s| - i
    ensures r.Some? ==> i <= r.value && OccursAt(s, sub, r.value)
    ensures r.Some? ==> forall j :: i <= j < r.value ==> !OccursAt(s, sub, j)
    ensures r.None? ==> forall j :: i <= j <= |s| ==> !OccursAt(s, sub, j)
  {
    if OccursAt(s, sub, i) then Some(i)
    else if i == |s| then None
    else FindFrom(s, sub, i + 1)
  }

  /** `s.find(sub)`, as an option: the first index where `sub` occurs. */
  function Find(s: string, sub: string): (r: Option<nat>)
    ensures r.Some? ==> OccursAt(s, sub, r.value) && forall j :: 0 <= j < r.value ==> !OccursAt(s, sub, j)
    ensures r.None? <==> forall j :: 0 <= j <= |s| ==> !OccursAt(s, sub, j)
  {
    FindFrom(s, sub, 0)
  }

  /** `sub in s`. */
  predicate Contains(s: string, sub: string) {
    Find(s, sub).Some?
  }

  /** Every character of `w` occurs in `s`. */
  predicate CharsIn(w: string, s: string) {
    forall c :: c in w ==> c in s
  }

  lemma CharsInTrans(a: string, b: string, c: string)
    requires CharsIn(a, b) && CharsIn(b, c)
    ensures CharsIn(a, c)
  {
  }

  lemma OccursChars(s: string, sub: string, i: nat)
    requires OccursAt(s, sub, i)
    ensures CharsIn(sub, s)
  {
    forall c | c in sub ensures c in s {
      var k :| 0 <= k < |sub| && sub[k] == c;
      assert s[i + k] == c;
    }
  }

  lemma ContainsAt(s: string, sub: string, i: nat)
    requires OccursAt(s, sub, i)
    ensures Contains(s, sub)
  {
  }

  /** Substring containment is transitive: if `b` occurs in `a` and `c` in
      `b`, then `c` occurs in `a`. */
  lemma ContainsTransitive(a: string, b: string, c: string)
    requires Contains(a, b) && Contains(b, c)
    ensures Contains(a, c)
  {
    var i := Find(a, b).value;
    var j := Find(b, c).value;
    assert b == a[i..i + |b|] && c == b[j..j + |c|];
    SliceOfSlice(a, i, |b|, j, |c|);
    ContainsAt(a, c, i + j);
  }

  lemma SliceOfSlice(a: string, i: nat, n: nat, j: nat, m: nat)
    requires i + n <= |a| && j + m <= n
    ensures a[i..i + n][j..j + m] == a[i + j..i + j + m]
  {
    var l := a[i..i + n][j..j + m];
    assert |l| == m;
    forall k | 0 <= k < m ensures l[k] == a[i + j + k] {
      assert l[k] == a[i..i + n][j + k];
    }
  }

  /** `s.split(sep, 1)[1]`: the text after the first occurrence of `sep`,
      or None where Python raises IndexError because `sep` is absent. */
  function After(s: string, sep: string): (r: Option<string>)
    ensures r.Some? <==> Contains(s, sep)
    ensures r.Some? ==> exists i: nat :: OccursAt(s, sep, i) && r.value == s[i + |sep|..]
  {
    match Find(s, sep)
    case Some(i) => Some(s[i + |sep|..])
    case None => None
  }

  // ---------------------------------------------------------------------
  // split() and join

  function SkipSpace(s: string): (r: string)
    ensures |r| <= |s| && r == s[|s| - |r|..]
    ensures forall k :: 0 <= k < |s| - |r| ==> IsSpace(s[k])
    ensures r == [] || !IsSpace(r[0])
  {
    TrimStart(s, false)
  }

  function WordLength(s: string): (n: nat)
    ensures n <= |s|
    ensures forall k :: 0 <= k < n ==> !IsSpace(s[k])
    ensures n == |s| || IsSpace(s[n])
  {
    if s == [] || IsSpace(s[0]) then 0 else 1 + WordLength(s[1..])
  }

  predicate IsWord(t: string) {
    t != [] && forall k :: 0 <= k < |t| ==> !IsSpace(t[k])
  }

  predicate AllSpace(s: string) {
    forall k :: 0 <= k < |s| ==> IsSpace(s[k])
  }

  /** The whitespace prefix SkipSpace removes is the longest one: any suffix
      after spaces that does not itself start with a space is SkipSpace's. */
  lemma SkipSpaceUnique(x: string, r: string)
    requires |r| <= |x| && r == x[|x| - |r|..] && AllSpace(x[..|x| - |r|])
    requires r == [] || !IsSpace(r[0])
    ensures SkipSpace(x) == r
  {
    var u := SkipSpace(x);
    assert forall k :: 0 <= k < |x| - |r| ==> x[..|x| - |r|][k] == x[k];
    assert r != [] ==> r[0] == x[|x| - |r|];
    assert u != [] ==> u[0] == x[|x| - |u|];
  }

  /** SkipSpace leaves nothing exactly when the string is blank. */
  lemma SkipSpaceBlank(s: string)
    ensures SkipSpace(s) == [] <==> AllSpace(s)
  {
    var t := SkipSpace(s);
    assert t != [] ==> t[0] == s[|s| - |t|];
  }

  /** The first word is as long as the run of non-whitespace it starts. */
  lemma WordLengthUnique(w: string, rest: string)
    requires IsWord(w) && (rest == [] || IsSpace(rest[0]))
    ensures WordLength(w + rest) == |w|
  {
    assert forall k :: 0 <= k < |w| ==> (w + rest)[k] == w[k];
    if rest != [] {
      assert (w + rest)[|w|] == rest[0];
    }
  }

  /** `s.split()`: the maximal runs of non-whitespace characters, in order;
      none at all exactly when `s` is blank. */
  function Split(s: string): (r: seq<string>)
    decreases |s|
    ensures forall k :: 0 <= k < |r| ==> IsWord(r[k])
    ensures r == [] <==> AllSpace(s)
  {
    SkipSpaceBlank(s);
    var t := SkipSpace(s);
    if t == [] then []
    else
      var n := WordLength(t);
      FirstWord(t);
      ConsWords(t[..n], Split(t[n..]));
      [t[..n]] + Split(t[n..])
  }

  /** A string that starts with a non-space starts with a word. */
  lemma FirstWord(t: string)
    requires t != [] && !IsSpace(t[0])
    ensures IsWord(t[..WordLength(t)])
  {
  }

  lemma ConsWords(w: string, rest: seq<string>)
    requires IsWord(w) && forall k :: 0 <= k < |rest| ==> IsWord(rest[k])
    ensures forall k :: 0 <= k < |[w] + rest| ==> IsWord(([w] + rest)[k])
  {
  }

  /** Leading whitespace is skipped: `(sp + s).split() == s.split()`. */
  lemma SplitSpaces(sp: string, s: string)
    requires AllSpace(sp)
    ensures Split(sp + s) == Split(s)
  {
    var x := sp + s;
    var r := SkipSpace(s);
    AppendSlices(sp, s, |s| - |r|);
    BlankAppend(sp, s[..|s| - |r|]);
    SkipSpaceUnique(x, r);
  }

  lemma BlankAppend(a: string, b: string)
    requires AllSpace(a) && AllSpace(b)
    ensures AllSpace(a + b)
  {
    assert forall k :: |a| <= k < |a + b| ==> (a + b)[k] == b[k - |a|];
  }

  /** A word followed by whitespace or the end is the first word, and
      splitting carries on after it. */
  lemma SplitFirstWord(w: string, rest: string)
    requires IsWord(w) && (rest == [] || IsSpace(rest[0]))
    ensures Split(w + rest) == [w] + Split(rest)
  {
    var x := w + rest;
    assert x[0] == w[0];
    SkipSpaceUnique(x, x);
    WordLengthUnique(w, rest);
    assert x[..|w|] == w && x[|w|..] == rest;
  }

  /** The text after a keyword, `" " + w + rest`, stripped and split,
      starts with the word `w`: `" 5 recalls".strip().split()` is
      `["5", "recalls"]`. */
  lemma SplitAfterSpace(w: string, rest: string)
    requires IsWord(w) && (rest == [] || (IsSpace(rest[0]) && !IsSpace(rest[|rest| - 1])))
    ensures Split(Strip(" " + w + rest, false)) == [w] + Split(rest)
  {
    var x := w + rest;
    assert x[0] == w[0];
    if rest == [] {
      assert x == w;
    } else {
      assert x[|x| - 1] == rest[|rest| - 1];
    }
    StripLeadingSpace(x);
    AppendAssoc(" ", w, rest);
    SplitFirstWord(w, rest);
  }

  /** One space before a string with nothing to strip is all `strip()`
      removes. */
  lemma StripLeadingSpace(x: string)
    requires x != [] && !IsSpace(x[0]) && !IsSpace(x[|x| - 1])
    ensures Strip(" " + x, false) == x
  {
    assert (" " + x)[1..] == x;
    assert TrimStart(x, false) == x;
    assert TrimStart(" " + x, false) == x;
  }

  /** Splitting only cuts: every character of every word was in `s`. */
  lemma {:induction false} SplitChars(s: string)
    decreases |s|
    ensures forall k :: 0 <= k < |Split(s)| ==> CharsIn(Split(s)[k], s)
  {
    var t := SkipSpace(s);
    if t != [] {
      var n := WordLength(t);
      SplitChars(t[n..]);
      OccursChars(s, t, |s| - |t|);
      WordsChars(s, t, n, Split(t[n..]));
    }
  }

  /** A first word cut from `t`, followed by words drawn from the rest of
      `t`, draws only on characters of `s` when `t` does. */
  lemma WordsChars(s: string, t: string, n: nat, rest: seq<string>)
    requires n <= |t| && CharsIn(t, s)
    requires forall k :: 0 <= k < |rest| ==> CharsIn(rest[k], t[n..])
    ensures forall k :: 0 <= k < |[t[..n]] + rest| ==> CharsIn(([t[..n]] + rest)[k], s)
  {
    OccursChars(t, t[..n], 0);
    OccursChars(t, t[n..], n);
    var r := [t[..n]] + rest;
    forall k | 0 <= k < |r| ensures CharsIn(r[k], s) {
      if k == 0 {
        CharsInTrans(t[..n], t, s);
      } else {
        assert r[k] == rest[k - 1];
        CharsInTrans(rest[k - 1], t[n..], t);
        CharsInTrans(rest[k - 1], t, s);
      }
    }
  }

  /** `sep.join(parts)`. */
  function Join(parts: seq<string>, sep: string): (r: string)
    ensures forall c :: c in r ==> c in sep || exists k :: 0 <= k < |parts| && c in parts[k]
  {
    if parts == [] then []
    else if |parts| == 1 then parts[0]
    else parts[0] + sep + Join(parts[1..], sep)
  }

  lemma JoinPair(a: string, b: string, sep: string)
    ensures Join([a, b], sep) == a + sep + b
  {
    assert [a, b][1..] == [b];
  }

  // ---------------------------------------------------------------------
  // Decimal numbers

  /** `s.isdigit()` for ASCII digits. */
  predicate IsDigits(s: string) {
    s != [] && forall k :: 0 <= k < |s| ==> IsDigit(s[k])
  }

  /** `int(s)` for a string of ASCII digits. */
  function DigitsValue(s: string): nat
    requires forall k :: 0 <= k < |s| ==> IsDigit(s[k])
  {
    if s == [] then 0
    else
      assert IsDigit(s[|s| - 1]);
      DigitsValue(s[..|s| - 1]) * 10 + (s[|s| - 1] as int - '0' as int)
  }

  function DigitChar(d: nat): (c: char)
    requires d < 10
    ensures IsDigit(c) && c as int - '0' as int == d
  {
    ('0' as int + d) as char
  }

  /** `str(n)` for a natural number. */
  function NatToString(n: nat): (r: string)
    ensures IsDigits(r)
  {
    if n < 10 then [DigitChar(n)] else NatToString(n / 10) + [DigitChar(n % 10)]
  }

  /** `str(i)` for any integer. */
  function IntToString(i: int): (r: string)
    ensures r != []
  {
    if i < 0 then "-" + NatToString(-i) else NatToString(i)
  }

  /** Reading back what `str` printed gives the number: `int(str(n)) == n`. */
  lemma {:induction false} DecimalRoundTrip(n: nat)
    ensures DigitsValue(NatToString(n)) == n
  {
    if n >= 10 {
      DecimalRoundTrip(n / 10);
      var s := NatToString(n);
      assert s[..|s| - 1] == NatToString(n / 10);
    }
  }

  /** The body of an integer literal `int()` accepts: a digit, then digits
      each optionally preceded by a single underscore. */
  predicate IsDecimal(t: string)
    decreases |t|
  {
    t != [] && IsDigit(t[0]) &&
    (|t| == 1 || IsDecimal(t[1..]) || (t[1] == '_' && IsDecimal(t[2..])))
  }

  lemma {:induction false} DigitsDecimal(s: string)
    requires IsDigits(s)
    ensures IsDecimal(s)
  {
    if |s| > 1 {
      DigitsDecimal(s[1..]);
    }
  }

  /** `a_b` is a literal when `a` is a run of digits and `b` a literal. */
  lemma {:induction false} GroupedDecimal(a: string, b: string)
    requires IsDigits(a) && IsDecimal(b)
    ensures IsDecimal(a + "_" + b)
  {
    var t := a + "_" + b;
    if |a| == 1 {
      assert t[1] == '_' && t[2..] == b;
    } else {
      assert t[1..] == a[1..] + "_" + b;
      GroupedDecimal(a[1..], b);
    }
  }

  /** A doubled underscore is never part of a literal. */
  lemma {:induction false} DoubledNotDecimal(a: string, b: string)
    requires IsDigits(a)
    ensures !IsDecimal(a + "__" + b)
  {
    var t := a + "__" + b;
    if |a| == 1 {
      assert t[1..] == "__" + b && t[2..] == "_" + b;
    } else {
      assert t[1..] == a[1..] + "__" + b;
      assert t[1] == a[1];
      DoubledNotDecimal(a[1..], b);
    }
  }

  /** The digits of `t`, in order, without the separators between them. */
  function DigitsOf(t: string): (r: string)
    ensures forall k :: 0 <= k < |r| ==> IsDigit(r[k])
    ensures |r| <= |t|
    ensures (forall k :: 0 <= k < |t| ==> IsDigit(t[k])) ==> r == t
  {
    if t == [] then []
    else (if IsDigit(t[0]) then [t[0]] else []) + DigitsOf(t[1..])
  }

  lemma {:induction false} DigitsOfAppend(x: string, y: string)
    ensures DigitsOf(x + y) == DigitsOf(x) + DigitsOf(y)
  {
    if x != [] {
      assert (x + y)[1..] == x[1..] + y;
      DigitsOfAppend(x[1..], y);
    } else {
      assert x + y == y;
    }
  }

  /** An integer literal with nothing around it: an optional sign, then
      digits in groups joined by single underscores; None for anything
      else. A literal starts with a digit or a sign. */
  function ReadInt(t: string): (r: Option<int>)
    ensures r.Some? ==> t != [] && (IsDigit(t[0]) || t[0] == '-' || t[0] == '+')
  {
    if IsDecimal(t) then Some(DigitsValue(DigitsOf(t)) as int)
    else if |t| >= 2 && t[0] == '-' && IsDecimal(t[1..]) then Some(0 - DigitsValue(DigitsOf(t[1..])) as int)
    else if |t| >= 2 && t[0] == '+' && IsDecimal(t[1..]) then Some(DigitsValue(DigitsOf(t[1..])))
    else None
  }

  /** `int(s)` on a string: the literal left once surrounding whitespace
      is stripped; None where Python raises ValueError. */
  function ParseInt(s: string): Option<int> {
    ReadInt(Strip(s, false))
  }

  /** A string with nothing to strip is read as it stands. */
  lemma ParseLiteral(t: string)
    requires t != [] && !IsSpace(t[0]) && !IsSpace(t[|t| - 1])
    ensures ParseInt(t) == ReadInt(t)
  {
    StripNoop(t, false);
  }

  /** A plain digit string parses to its value. */
  lemma ParseDigits(s: string)
    requires IsDigits(s)
    ensures ParseInt(s) == Some(DigitsValue(s))
  {
    assert IsDigit(s[0]) && IsDigit(s[|s| - 1]);
    DigitsDecimal(s);
    ParseLiteral(s);
  }

  /** Two digit groups joined by an underscore read as the digits run
      together: `int("2_5") == 25`. */
  lemma ParseGrouped(a: string, b: string)
    requires IsDigits(a) && IsDigits(b)
    ensures ParseInt(a + "_" + b) == Some(DigitsValue(a + b))
  {
    var s := a + "_" + b;
    DigitsDecimal(b);
    GroupedDecimal(a, b);
    assert IsDigit(s[0]) && IsDigit(s[|s| - 1]);
    ParseLiteral(s);
    GroupedDigits(a, b);
  }

  lemma GroupedDigits(a: string, b: string)
    requires IsDigits(a) && IsDigits(b)
    ensures DigitsOf(a + "_" + b) == a + b
  {
    DigitsOfAppend(a, "_" + b);
    DigitsOfSkip(b);
    AppendAssoc(a, "_", b);
  }

  lemma DigitsOfSkip(b: string)
    ensures DigitsOf("_" + b) == DigitsOf(b)
  {
    assert ("_" + b)[0] == '_' && ("_" + b)[1..] == b;
  }

  /** Two underscores in a row are refused: `int("1__0")` raises. */
  lemma ParseDoubleUnderscore(a: string, b: string)
    requires IsDigits(a) && IsDigits(b)
    ensures ParseInt(a + "__" + b) == None
  {
    var s := a + "__" + b;
    assert IsDigit(s[0]) && IsDigit(s[|s| - 1]);
    ParseLiteral(s);
    DoubledNotDecimal(a, b);
  }

  /** A minus sign before a digit string negates it. */
  lemma ParseNegative(d: string)
    requires IsDigits(d)
    ensures ParseInt("-" + d) == Some(0 - DigitsValue(d))
  {
    var s := "-" + d;
    assert s[0] == '-' && s[|s| - 1] == d[|d| - 1];
    ParseLiteral(s);
    ReadNegative(d);
  }

  lemma ReadNegative(d: string)
    requires IsDigits(d)
    ensures ReadInt("-" + d) == Some(0 - DigitsValue(d))
  {
    var s := "-" + d;
    assert s[0] == '-' && s[1..] == d;
    assert !IsDecimal(s);
    DigitsDecimal(d);
    assert DigitsOf(d) == d;
  }

  /** `int(str(i))` is `i` for every integer. */
  lemma IntRoundTrip(i: int)
    ensures ParseInt(IntToString(i)) == Some(i)
  {
    var n: nat := if i < 0 then -i else i;
    DecimalRoundTrip(n);
    if i < 0 {
      ParseNegative(NatToString(n));
    } else {
      ParseDigits(NatToString(n));
    }
  }

  /** A first character that is not stripped stays first. */
  lemma StripKeepsFirst(s: string, quotes: bool)
    requires s != [] && !Drop(s[0], quotes)
    ensures Strip(s, quotes) != [] && Strip(s, quotes)[0] == s[0]
  {
    var r := Strip(s, quotes);
    var i: nat :| OccursAt(s, r, i)
                  && (forall k :: 0 <= k < i ==> Drop(s[k], quotes))
                  && (forall k :: i + |r| <= k < |s| ==> Drop(s[k], quotes));
    assert i == 0;
    assert r != [];
    assert r[0] == s[i..i + |r|][0];
  }

  /** A string that starts with anything but whitespace, a sign or a digit
      is not an integer. */
  lemma ParseIntRejects(s: string)
    requires s != [] && !IsSpace(s[0]) && !IsDigit(s[0]) && s[0] != '-' && s[0] != '+'
    ensures ParseInt(s) == None
  {
    StripKeepsFirst(s, false);
  }

  lemma StripNoop(s: string, quotes: bool)
    requires s == [] || (!Drop(s[0], quotes) && !Drop(s[|s| - 1], quotes))
    ensures Strip(s, quotes) == s
  {
  }
}
