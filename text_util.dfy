/**
  Character classes and string operations with the meaning Python's `str`
  methods give them: `isspace`, `lower`, `upper`, `strip`, `split(sep)`,
  `split()`, `sep.join(...)`, `startswith`, the `in` operator on strings and
  the decimal digits read by `int(...)`.
*/
module TextUtil {

  /** `str.isspace()`; also what `\s`, `str.split()` and `str.strip()` treat as whitespace. */
  predicate IsSpace(c: char) { SpaceFrom(c, 0) }

  /** The `i`-th code-point range of Python's whitespace characters. */
  function SpaceRange(i: nat): (char, char)
    requires i < 10
  {
    match i
    case 0 => ('\t', '\r')
    case 1 => ('\U{1C}', ' ')
    case 2 => ('\U{85}', '\U{85}')
    case 3 => ('\U{A0}', '\U{A0}')
    case 4 => ('\U{1680}', '\U{1680}')
    case 5 => ('\U{2000}', '\U{200A}')
    case 6 => ('\U{2028}', '\U{2029}')
    case 7 => ('\U{202F}', '\U{202F}')
    case 8 => ('\U{205F}', '\U{205F}')
    case _ => ('\U{3000}', '\U{3000}')
  }

  /** `c` lies in one of the whitespace ranges from the `i`-th on. */
  predicate SpaceFrom(c: char, i: nat)
    decreases 10 - i
  {
    i < 10 && (SpaceRange(i).0 <= c <= SpaceRange(i).1 || SpaceFrom(c, i + 1))
  }

  lemma {:induction false} NotSpaceFrom(c: char, i: nat)
    requires forall j :: i <= j < 10 ==> c < SpaceRange(j).0 || SpaceRange(j).1 < c
    ensures !SpaceFrom(c, i)
    decreases 10 - i
  {
    if i < 10 {
      NotSpaceFrom(c, i + 1);
    }
  }

  predicate IsDigit(c: char) { '0' <= c <= '9' }

  predicate IsUpper(c: char) { 'A' <= c <= 'Z' }

  predicate IsLowerLetter(c: char) { 'a' <= c <= 'z' }

  /** The regex class `\w`, on ASCII. */
  predicate IsWordChar(c: char) { IsDigit(c) || IsUpper(c) || IsLowerLetter(c) || c == '_' }

  lemma SpaceIsSpace()
    ensures IsSpace(' ')
  {
  }

  /** Word characters are not whitespace. */
  lemma WordCharNotSpace(c: char)
    requires IsWordChar(c)
    ensures !IsSpace(c)
  {
    NotSpaceFrom(c, 0);
  }

  predicate AllDigits(s: string) { forall k :: 0 <= k < |s| ==> IsDigit(s[k]) }

  /** No upper-case letter anywhere in `s`. */
  predicate NoUpper(s: string) { forall k :: 0 <= k < |s| ==> !IsUpper(s[k]) }

  function ToLower(c: char): (r: char)
    ensures !IsUpper(r)
    ensures !IsUpper(c) ==> r == c
  {
    if IsUpper(c) then (c as int + 32) as char else c
  }

  function ToUpper(c: char): (r: char)
    ensures !IsLowerLetter(r)
    ensures !IsLowerLetter(c) ==> r == c
  {
    if IsLowerLetter(c) then (c as int - 32) as char else c
  }

  /** `s.lower()` */
  function Lower(s: string): (r: string)
    ensures |r| == |s| && NoUpper(r)
    ensures forall k :: 0 <= k < |s| ==> r[k] == ToLower(s[k])
  {
    seq(|s|, k requires 0 <= k < |s| => ToLower(s[k]))
  }

  /** `s.upper()` */
  function Upper(s: string): (r: string)
    ensures |r| == |s|
    ensures forall k :: 0 <= k < |s| ==> r[k] == ToUpper(s[k])
  {
    seq(|s|, k requires 0 <= k < |s| => ToUpper(s[k]))
  }

  lemma LowerOfNoUpper(s: string)
    requires NoUpper(s)
    ensures Lower(s) == s
  {
  }

  /** `s.startswith(prefix)` */
  predicate StartsWith(s: string, prefix: string) {
    |prefix| <= |s| && s[..|prefix|] == prefix
  }

  /** `needle in hay` */
  predicate Contains(hay: string, needle: string) {
    exists i :: 0 <= i <= |hay| && StartsWith(hay[i..], needle)
  }

  /** `any(p in hay for p in phrases)` */
  predicate ContainsAny(hay: string, phrases: seq<string>) {
    exists p :: p in phrases && Contains(hay, p)
  }

  /** `s.lstrip()` */
  function LStrip(s: string): (r: string)
    ensures |r| <= |s|
    ensures r == [] || !IsSpace(r[0])
    decreases |s|
  {
    if |s| > 0 && IsSpace(s[0]) then LStrip(s[1..]) else s
  }

  /** What `lstrip()` keeps is a suffix of the text. */
  lemma {:induction false} LStripSuffix(s: string)
    ensures LStrip(s) == s[|s| - |LStrip(s)|..]
    decreases |s|
  {
    if |s| > 0 && IsSpace(s[0]) {
      LStripSuffix(s[1..]);
    }
  }

  /** `lstrip()` drops whitespace only. */
  lemma {:induction false} LStripDropsSpaces(s: string)
    ensures forall k :: 0 <= k < |s| - |LStrip(s)| ==> IsSpace(s[k])
    decreases |s|
  {
    if |s| > 0 && IsSpace(s[0]) {
      LStripDropsSpaces(s[1..]);
      assert forall k :: 1 <= k < |s| ==> s[k] == s[1..][k - 1];
    }
  }

  /** Text that does not start with whitespace is left alone by `lstrip()`. */
  lemma LStripNoop(s: string)
    requires s == [] || !IsSpace(s[0])
    ensures LStrip(s) == s
  {
  }

  /** `s.rstrip()` */
  function RStrip(s: string): (r: string)
    ensures |r| <= |s|
    ensures r == [] || !IsSpace(r[|r| - 1])
    ensures r != [] ==> r[0] == s[0]
    decreases |s|
  {
    if |s| > 0 && IsSpace(s[|s| - 1]) then RStrip(s[..|s| - 1]) else s
  }

  /** What `rstrip()` keeps is a prefix of the text. */
  lemma {:induction false} RStripPrefix(s: string)
    ensures RStrip(s) == s[..|RStrip(s)|]
    decreases |s|
  {
    if |s| > 0 && IsSpace(s[|s| - 1]) {
      RStripPrefix(s[..|s| - 1]);
    }
  }

  /** `rstrip()` drops whitespace only. */
  lemma {:induction false} RStripDropsSpaces(s: string)
    ensures forall k :: |RStrip(s)| <= k < |s| ==> IsSpace(s[k])
    decreases |s|
  {
    if |s| > 0 && IsSpace(s[|s| - 1]) {
      RStripDropsSpaces(s[..|s| - 1]);
    }
  }

  /** `s.strip()`: drops the leading and trailing whitespace and nothing else. */
  function Strip(s: string): (r: string)
    ensures IsStripped(r)
    ensures |r| <= |s|
  {
    RStrip(LStrip(s))
  }

  /** What `strip()` keeps is a piece of the text. */
  lemma StripInfix(s: string)
    ensures Contains(s, Strip(s))
    ensures forall c :: c in Strip(s) ==> c in s
  {
    var l := LStrip(s);
    var r := RStrip(l);
    LStripSuffix(s);
    RStripPrefix(l);
    assert forall c :: c in r ==> c in l;
    assert s[|s| - |l|..] == l && StartsWith(l, r);
  }

  /** What `strip()` keeps is the slice of the text starting at the returned index. */
  lemma StripSlice(s: string) returns (i: nat)
    ensures i + |Strip(s)| <= |s| && Strip(s) == s[i..i + |Strip(s)|]
  {
    var l := LStrip(s);
    var r := RStrip(l);
    i := |s| - |l|;
    LStripSuffix(s);
    RStripPrefix(l);
    assert s[i..][..|r|] == s[i..i + |r|];
  }

  /** `strip()` gives the empty string exactly when the text is all whitespace. */
  lemma StripEmpty(s: string)
    ensures Strip(s) == [] <==> forall k :: 0 <= k < |s| ==> IsSpace(s[k])
  {
    var l := LStrip(s);
    LStripSuffix(s);
    LStripDropsSpaces(s);
    RStripDropsSpaces(l);
    assert RStrip(l) == [] ==> l == [];
    if RStrip(l) == [] {
      assert forall k :: 0 <= k < |s| ==> IsSpace(s[k]);
    }
  }

  /** No whitespace at either end: what `strip()` returns. */
  predicate IsStripped(s: string) {
    s == [] || (!IsSpace(s[0]) && !IsSpace(s[|s| - 1]))
  }

  /** Stripping text that has no outer whitespace leaves it unchanged. */
  lemma StripNoop(s: string)
    requires IsStripped(s)
    ensures Strip(s) == s
  {
  }

  lemma StripIdempotent(s: string)
    ensures Strip(Strip(s)) == Strip(s)
  {
    StripNoop(Strip(s));
  }

  /** Position of the first `c` in `s`. */
  function IndexOfChar(s: string, c: char): (i: nat)
    requires c in s
    ensures i < |s| && s[i] == c && c !in s[..i]
  {
    if s[0] == c then 0 else 1 + IndexOfChar(s[1..], c)
  }

  /** `s.split(sep)` for a one-character separator: never empty, and no piece holds `sep`. */
  function Split(s: string, sep: char): (parts: seq<string>)
    ensures |parts| >= 1
    ensures forall p :: p in parts ==> sep !in p
    decreases |s|
  {
    if sep !in s then [s]
    else
      var i := IndexOfChar(s, sep);
      [s[..i]] + Split(s[i + 1..], sep)
  }

  /** Some character of `s` lies in `cs`. */
  predicate HasAny(s: string, cs: set<char>) {
    exists k :: 0 <= k < |s| && s[k] in cs
  }

  /** Position of the first character of `s` that lies in `cs`. */
  function IndexOfAny(s: string, cs: set<char>): (i: nat)
    requires HasAny(s, cs)
    ensures i < |s| && s[i] in cs && !HasAny(s[..i], cs)
  {
    if s[0] in cs then 0
    else
      assert HasAny(s[1..], cs) by {
        var k :| 0 <= k < |s| && s[k] in cs;
        assert s[1..][k - 1] == s[k];
      }
      1 + IndexOfAny(s[1..], cs)
  }

  /** `re.split('[...]', s)` for a character class `seps`: never empty, and no piece holds a separator. */
  function SplitAny(s: string, seps: set<char>): (parts: seq<string>)
    ensures |parts| >= 1
    decreases |s|
  {
    if !HasAny(s, seps) then [s]
    else
      var i := IndexOfAny(s, seps);
      [s[..i]] + SplitAny(s[i + 1..], seps)
  }

  /** `sep.join(parts)` */
  function Join(parts: seq<string>, sep: char): string
  {
    if |parts| == 0 then ""
    else if |parts| == 1 then parts[0]
    else parts[0] + [sep] + Join(parts[1..], sep)
  }

  lemma IndexOfCharAfter(a: string, c: char, b: string)
    requires c !in a
    ensures c in a + [c] + b && IndexOfChar(a + [c] + b, c) == |a|
  {
    var s := a + [c] + b;
    assert s[|a|] == c;
    if a != [] {
      assert s[1..] == a[1..] + [c] + b;
      IndexOfCharAfter(a[1..], c, b);
    }
  }

  /** The first `c` of a text that holds one stays first when more text follows. */
  lemma {:induction false} IndexOfCharPrefix(a: string, c: char, b: string)
    requires c in a
    ensures c in a + b && IndexOfChar(a + b, c) == IndexOfChar(a, c)
  {
    assert (a + b)[0] == a[0];
    if a[0] != c {
      assert (a + b)[1..] == a[1..] + b;
      IndexOfCharPrefix(a[1..], c, b);
    }
  }

  /** The last piece of a split is what follows the last separator. */
  lemma {:induction false} SplitLast(a: string, sep: char, b: string)
    requires sep !in b
    ensures LastPiece(a + [sep] + b, sep) == b
  {
    SplitConcat(a, sep, b);
    assert Split(b, sep) == [b];
  }

  /** `s.split(sep)[-1]` */
  function LastPiece(s: string, sep: char): string {
    var parts := Split(s, sep);
    parts[|parts| - 1]
  }

  /** Splitting at one more separator concatenates the splits of both sides. */
  lemma {:induction false} SplitConcat(a: string, sep: char, b: string)
    ensures Split(a + [sep] + b, sep) == Split(a, sep) + Split(b, sep)
    decreases |a|
  {
    if sep in a {
      var i := IndexOfChar(a, sep);
      var head, rest := a[..i], a[i + 1..];
      SplitPieces(a, sep, b);
      SplitConsAt(a + [sep] + b, sep, head, rest + [sep] + b);
      SplitConcat(rest, sep, b);
      SplitConsAt(a, sep, head, rest);
      SeqAssoc([head], Split(rest, sep), Split(b, sep));
    } else {
      SplitAtFirst(a, sep, b);
    }
  }

  lemma SeqAssoc<T>(x: seq<T>, y: seq<T>, z: seq<T>)
    ensures x + (y + z) == (x + y) + z
  {
  }

  /** Where a text with a separator in its first part is cut by `Split`. */
  lemma SplitPieces(a: string, sep: char, b: string)
    requires sep in a
    ensures sep in a + [sep] + b
    ensures IndexOfChar(a + [sep] + b, sep) == IndexOfChar(a, sep)
    ensures (a + [sep] + b)[..IndexOfChar(a, sep)] == a[..IndexOfChar(a, sep)]
    ensures (a + [sep] + b)[IndexOfChar(a, sep) + 1..] == a[IndexOfChar(a, sep) + 1..] + [sep] + b
  {
    var s := a + [sep] + b;
    var i := IndexOfChar(a, sep);
    IndexOfCharPrefix(a, sep, [sep] + b);
    assert s == a + ([sep] + b);
    assert s[..i] == a[..i];
    assert s[i + 1..] == a[i + 1..] + [sep] + b;
  }

  /** Splitting at the first separator. */
  lemma SplitAtFirst(a: string, sep: char, b: string)
    requires sep !in a
    ensures Split(a + [sep] + b, sep) == Split(a, sep) + Split(b, sep)
  {
    var s := a + [sep] + b;
    IndexOfCharAfter(a, sep, b);
    assert s[..|a|] == a;
    assert s[|a| + 1..] == b;
    SplitCons(s, sep);
  }

  /** `Split` cuts at the first separator. */
  lemma SplitConsAt(s: string, sep: char, head: string, rest: string)
    requires sep in s
    requires head == s[..IndexOfChar(s, sep)] && rest == s[IndexOfChar(s, sep) + 1..]
    ensures Split(s, sep) == [head] + Split(rest, sep)
  {
  }

  /** One unfolding of `Split` at the first separator. */
  lemma SplitCons(s: string, sep: char)
    requires sep in s
    ensures Split(s, sep) == [s[..IndexOfChar(s, sep)]] + Split(s[IndexOfChar(s, sep) + 1..], sep)
  {
  }

  /** Splitting joined pieces gives the pieces back. */
  lemma {:induction false} SplitJoin(parts: seq<string>, sep: char)
    requires |parts| >= 1
    requires forall p :: p in parts ==> sep !in p
    ensures Split(Join(parts, sep), sep) == parts
  {
    if |parts| > 1 {
      var first, tail := parts[0], parts[1..];
      assert parts == [first] + tail;
      assert sep !in first;
      SplitJoin(tail, sep);
      SplitAtFirst(first, sep, Join(tail, sep));
      SplitNoSep(first, sep);
    }
  }

  /** Text without the separator is one piece. */
  lemma SplitNoSep(s: string, sep: char)
    requires sep !in s
    ensures Split(s, sep) == [s]
  {
  }

  /** Joining the pieces of a split gives the text back. */
  lemma {:induction false} JoinSplit(s: string, sep: char)
    ensures Join(Split(s, sep), sep) == s
    decreases |s|
  {
    if sep in s {
      var i := IndexOfChar(s, sep);
      JoinSplit(s[i + 1..], sep);
      var parts := Split(s, sep);
      assert parts[1..] == Split(s[i + 1..], sep);
      assert s == s[..i] + [sep] + s[i + 1..];
    }
  }

  /** Index of the first non-whitespace character at or after `j`. */
  function SkipSpaces(s: string, j: nat): (k: nat)
    requires j <= |s|
    ensures j <= k <= |s|
    ensures forall m :: j <= m < k ==> IsSpace(s[m])
    ensures k == |s| || !IsSpace(s[k])
    decreases |s| - j
  {
    if j < |s| && IsSpace(s[j]) then SkipSpaces(s, j + 1) else j
  }

  /** A token of `str.split()`: non-empty and free of whitespace. */
  predicate IsToken(w: string) {
    w != [] && forall k :: 0 <= k < |w| ==> !IsSpace(w[k])
  }

  /** Length of the leading run of non-whitespace characters. */
  function SpanNonSpace(s: string): (n: nat)
    ensures n <= |s|
    ensures forall k :: 0 <= k < n ==> !IsSpace(s[k])
    ensures n == |s| || IsSpace(s[n])
  {
    if |s| == 0 || IsSpace(s[0]) then 0 else 1 + SpanNonSpace(s[1..])
  }

  /** `s.split()`: the maximal runs of non-whitespace characters, in order. */
  function Words(s: string): (ws: seq<string>)
    ensures forall i :: 0 <= i < |ws| ==> IsToken(ws[i])
    decreases |s|
  {
    var t := LStrip(s);
    if t == [] then []
    else
      var n := SpanNonSpace(t);
      LeadingToken(t);
      var rest := Words(t[n..]);
      TokensCons(t[..n], rest);
      [t[..n]] + rest
  }

  lemma TokensCons(w: string, ws: seq<string>)
    requires IsToken(w)
    requires forall i :: 0 <= i < |ws| ==> IsToken(ws[i])
    ensures forall i :: 0 <= i < |[w] + ws| ==> IsToken(([w] + ws)[i])
  {
    forall i | 0 <= i < |[w] + ws| ensures IsToken(([w] + ws)[i]) {
      if i > 0 {
        assert ([w] + ws)[i] == ws[i - 1];
      }
    }
  }

  /** The leading run of a text that starts with a non-space is a token. */
  lemma LeadingToken(t: string)
    requires t != [] && !IsSpace(t[0])
    ensures SpanNonSpace(t) > 0 && IsToken(t[..SpanNonSpace(t)])
  {
    var n := SpanNonSpace(t);
    forall k | 0 <= k < n ensures !IsSpace(t[..n][k]) {
      assert t[..n][k] == t[k];
    }
  }

  function DigitValue(c: char): nat
    requires IsDigit(c)
  {
    c as int - '0' as int
  }

  function DigitChar(d: nat): (c: char)
    requires d < 10
    ensures IsDigit(c) && DigitValue(c) == d
  {
    ('0' as int + d) as char
  }

  /** `int(ds)` for a string of decimal digits. */
  function DecimalValue(ds: string): nat
    requires AllDigits(ds)
  {
    if ds == [] then 0 else 10 * DecimalValue(ds[..|ds| - 1]) + DigitValue(ds[|ds| - 1])
  }

  /** `str(n)` for a natural number. */
  function NatToDecimal(n: nat): (ds: string)
    ensures ds != [] && AllDigits(ds)
  {
    if n < 10 then [DigitChar(n)] else NatToDecimal(n / 10) + [DigitChar(n % 10)]
  }

  /** Reading back the decimal form of `n` gives `n`. */
  lemma {:induction false} DecimalRoundTrip(n: nat)
    ensures DecimalValue(NatToDecimal(n)) == n
  {
    if n >= 10 {
      var ds := NatToDecimal(n);
      assert ds[..|ds| - 1] == NatToDecimal(n / 10);
      DecimalRoundTrip(n / 10);
    }
  }

  /** Lower-casing distributes over concatenation. */
  lemma LowerConcat(a: string, b: string)
    ensures Lower(a + b) == Lower(a) + Lower(b)
  {
    var l, r := Lower(a + b), Lower(a) + Lower(b);
    forall k | 0 <= k < |l| ensures l[k] == r[k] {
      if k < |a| {
        assert (a + b)[k] == a[k];
      } else {
        assert (a + b)[k] == b[k - |a|];
      }
    }
  }

  /** Lower-casing twice is lower-casing once. */
  lemma LowerIdempotent(s: string)
    ensures Lower(Lower(s)) == Lower(s)
  {
    LowerOfNoUpper(Lower(s));
  }

  /** A substring of a text stays one when more text follows. */
  lemma ContainsAppend(a: string, b: string, needle: string)
    requires Contains(a, needle)
    ensures Contains(a + b, needle)
  {
    var i :| 0 <= i <= |a| && StartsWith(a[i..], needle);
    assert (a + b)[i..][..|needle|] == a[i..][..|needle|];
    assert StartsWith((a + b)[i..], needle);
  }

  /** A substring of a text stays one when text comes before it. */
  lemma ContainsPrepend(a: string, b: string, needle: string)
    requires Contains(b, needle)
    ensures Contains(a + b, needle)
  {
    var i :| 0 <= i <= |b| && StartsWith(b[i..], needle);
    assert (a + b)[|a| + i..] == b[i..];
  }

  /** Any of several phrases found in a text is still found when more text follows. */
  lemma ContainsAnyAppend(a: string, b: string, phrases: seq<string>)
    requires ContainsAny(a, phrases)
    ensures ContainsAny(a + b, phrases)
  {
    var p :| p in phrases && Contains(a, p);
    ContainsAppend(a, b, p);
  }

  /** Every part of a joined text occurs in it. */
  lemma {:induction false} JoinHasPart(parts: seq<string>, sep: char, i: nat)
    requires i < |parts|
    ensures Contains(Join(parts, sep), parts[i])
  {
    var j := Join(parts, sep);
    if i == 0 {
      assert j[0..][..|parts[0]|] == parts[0];
      assert StartsWith(j[0..], parts[0]);
    } else {
      var pre := parts[0] + [sep];
      assert j == pre + Join(parts[1..], sep);
      JoinHasPart(parts[1..], sep, i - 1);
      ContainsPrepend(pre, Join(parts[1..], sep), parts[i]);
    }
  }

  /** A text joined from two or more parts starts with the first part and the separator. */
  lemma JoinStartsWith(parts: seq<string>, sep: char)
    requires |parts| >= 2
    ensures StartsWith(Join(parts, sep), parts[0] + [sep])
  {
    var pre := parts[0] + [sep];
    assert Join(parts, sep) == pre + Join(parts[1..], sep);
    assert (pre + Join(parts[1..], sep))[..|pre|] == pre;
  }
}
