/** The JavaScript string operations the source relies on, restricted to
    ASCII case mapping: `trim`, `toLowerCase`, `toUpperCase`, `split`,
    `join`, `indexOf`, `lastIndexOf`, `includes`, `startsWith`, `endsWith`,
    `replaceAll` of one character, and `split` by a regular expression that
    matches runs of one character class. */
module Text {

  /** The characters JavaScript's `trim` and `\s` treat as white space
      (the ASCII ones, no-break space, byte order mark and the two
      Unicode line terminators). */
  predicate IsWhitespace(c: char) {
    c == ' ' || c == '\t' || c == '\n' || c == '\r' || c == '\U{B}' || c == '\U{C}'
    || c == '\U{A0}' || c == '\U{FEFF}' || c == '\U{2028}' || c == '\U{2029}'
  }

  predicate IsDigit(c: char) { '0' <= c <= '9' }

  predicate IsLowerAlnum(c: char) { 'a' <= c <= 'z' || IsDigit(c) }

  /** A character of the regular-expression class `\w`. */
  predicate IsWordChar(c: char) { 'a' <= c <= 'z' || 'A' <= c <= 'Z' || IsDigit(c) || c == '_' }

  function LowerChar(c: char): (r: char)
    ensures 'A' <= c <= 'Z' ==> 'a' <= r <= 'z'
    ensures !('A' <= c <= 'Z') ==> r == c
  {
    if 'A' <= c <= 'Z' then (c as int + 32) as char else c
  }

  function UpperChar(c: char): (r: char)
    ensures 'a' <= c <= 'z' ==> 'A' <= r <= 'Z'
    ensures !('a' <= c <= 'z') ==> r == c
  {
    if 'a' <= c <= 'z' then (c as int - 32) as char else c
  }

  /** `toLowerCase`, ASCII letters only. */
  function ToLower(s: string): (r: string)
    ensures |r| == |s|
    ensures forall i {:trigger r[i]} :: 0 <= i < |s| ==> r[i] == LowerChar(s[i])
  {
    if s == [] then [] else [LowerChar(s[0])] + ToLower(s[1..])
  }

  /** `toUpperCase`, ASCII letters only. */
  function ToUpper(s: string): (r: string)
    ensures |r| == |s|
    ensures forall i {:trigger r[i]} :: 0 <= i < |s| ==> r[i] == UpperChar(s[i])
  {
    if s == [] then [] else [UpperChar(s[0])] + ToUpper(s[1..])
  }

  predicate NoEdgeWhitespace(s: string) {
    s == [] || (!IsWhitespace(s[0]) && !IsWhitespace(s[|s| - 1]))
  }

  /** The number of white-space characters `s` starts with. */
  function LeadingWhitespace(s: string): (n: nat)
    ensures n <= |s|
    ensures n == |s| || !IsWhitespace(s[n])
  {
    if s != [] && IsWhitespace(s[0]) then 1 + LeadingWhitespace(s[1..]) else 0
  }

  /** The number of white-space characters `s` ends with. */
  function TrailingWhitespace(s: string): (n: nat)
    ensures n <= |s|
    ensures n == |s| || !IsWhitespace(s[|s| - n - 1])
  {
    if s != [] && IsWhitespace(s[|s| - 1]) then 1 + TrailingWhitespace(s[..|s| - 1]) else 0
  }

  lemma {:induction false} LeadingWhitespaceIsWhitespace(s: string)
    ensures forall i :: 0 <= i < LeadingWhitespace(s) ==> IsWhitespace(s[i])
  {
    if s != [] && IsWhitespace(s[0]) {
      LeadingWhitespaceIsWhitespace(s[1..]);
    }
  }

  lemma {:induction false} TrailingWhitespaceIsWhitespace(s: string)
    ensures forall i :: |s| - TrailingWhitespace(s) <= i < |s| ==> IsWhitespace(s[i])
  {
    if s != [] && IsWhitespace(s[|s| - 1]) {
      TrailingWhitespaceIsWhitespace(s[..|s| - 1]);
    }
  }

  function TrimStart(s: string): string {
    s[LeadingWhitespace(s)..]
  }

  function TrimEnd(s: string): string {
    s[..|s| - TrailingWhitespace(s)]
  }

  /** `trim`: the input without its leading and trailing white space. */
  function Trim(s: string): (r: string)
    ensures |r| <= |s|
    ensures NoEdgeWhitespace(r)
  {
    TrimEnd(TrimStart(s))
  }

  /** What `trim` removes is white space at the two ends. */
  lemma {:induction false} TrimOccurs(s: string)
    ensures OccursAt(s, Trim(s), LeadingWhitespace(s))
    ensures forall i :: 0 <= i < LeadingWhitespace(s) ==> IsWhitespace(s[i])
    ensures forall i :: LeadingWhitespace(s) + |Trim(s)| <= i < |s| ==> IsWhitespace(s[i])
  {
    var a := LeadingWhitespace(s);
    var t := s[a..];
    LeadingWhitespaceIsWhitespace(s);
    TrailingWhitespaceIsWhitespace(t);
    assert s[a..][..|t| - TrailingWhitespace(t)] == s[a..a + |Trim(s)|];
    forall i | a + |Trim(s)| <= i < |s| ensures IsWhitespace(s[i]) {
      assert s[i] == t[i - a];
    }
  }

  /** Trimming adds no character. */
  lemma TrimKeepsChars(s: string, c: char)
    ensures c in Trim(s) ==> c in s
  {
    if c in Trim(s) {
      var k :| 0 <= k < |Trim(s)| && Trim(s)[k] == c;
      assert s[LeadingWhitespace(s)..][k] == c;
    }
  }

  lemma {:induction false} TrimOfTrimmed(s: string)
    requires NoEdgeWhitespace(s)
    ensures Trim(s) == s
  {
  }

  lemma {:induction false} LowerKeepsWhitespace(s: string)
    ensures NoEdgeWhitespace(s) ==> NoEdgeWhitespace(ToLower(s))
    ensures forall i :: 0 <= i < |s| ==> (IsWhitespace(ToLower(s)[i]) <==> IsWhitespace(s[i]))
  {
  }

  lemma {:induction false} LowerIdempotent(s: string)
    ensures ToLower(ToLower(s)) == ToLower(s)
  {
    assert forall i :: 0 <= i < |s| ==> LowerChar(LowerChar(s[i])) == LowerChar(s[i]);
  }

  /** `s.split(sep)` for a one-character separator: always at least one part. */
  function Split(s: string, sep: char): (r: seq<string>)
    ensures |r| >= 1
    ensures forall i :: 0 <= i < |r| ==> sep !in r[i]
  {
    if s == [] then [""]
    else
      var rest := Split(s[1..], sep);
      if s[0] == sep then [""] + rest else [[s[0]] + rest[0]] + rest[1..]
  }

  /** `parts.join(sep)`. */
  function Join(parts: seq<string>, sep: string): string {
    if parts == [] then ""
    else if |parts| == 1 then parts[0]
    else parts[0] + sep + Join(parts[1..], sep)
  }

  lemma {:induction false} SplitConcat(a: string, b: string, sep: char)
    requires sep !in a
    ensures Split(a + [sep] + b, sep) == [a] + Split(b, sep)
  {
    if a == [] {
      assert (a + [sep] + b)[1..] == b;
    } else {
      SplitConcat(a[1..], b, sep);
      assert (a + [sep] + b)[1..] == a[1..] + [sep] + b;
      assert [a[0]] + a[1..] == a;
    }
  }

  lemma {:induction false} SplitNoSep(a: string, sep: char)
    requires sep !in a
    ensures Split(a, sep) == [a]
  {
    if a != [] {
      SplitNoSep(a[1..], sep);
      assert [a[0]] + a[1..] == a;
    }
  }

  /** `Split` undoes `Join` when no part contains the separator. */
  lemma {:induction false} SplitJoin(parts: seq<string>, sep: char)
    requires |parts| >= 1
    requires forall i :: 0 <= i < |parts| ==> sep !in parts[i]
    ensures Split(Join(parts, [sep]), sep) == parts
  {
    if |parts| == 1 {
      SplitNoSep(parts[0], sep);
    } else {
      SplitJoin(parts[1..], sep);
      SplitConcat(parts[0], Join(parts[1..], [sep]), sep);
      assert [parts[0]] + parts[1..] == parts;
    }
  }

  /** The character classes the source splits on with a regular expression:
      `/\s+/` and `/[^a-z0-9]+/`. */
  datatype CharClass = Whitespace | NotLowerAlnum

  predicate InClass(c: char, cls: CharClass) {
    match cls
    case Whitespace => IsWhitespace(c)
    case NotLowerAlnum => !IsLowerAlnum(c)
  }

  function DropClass(s: string, cls: CharClass): (r: string)
    ensures |r| <= |s|
    ensures forall i :: 0 <= i < |r| ==> r[i] == s[|s| - |r| + i]
    ensures r == [] || !InClass(r[0], cls)
  {
    if s != [] && InClass(s[0], cls) then DropClass(s[1..], cls) else s
  }

  /** `s.split(/[cls]+/)`: the pieces between maximal runs of characters of
      the class; a leading or trailing run gives an empty first or last piece. */
  function SplitRuns(s: string, cls: CharClass): (r: seq<string>)
    ensures |r| >= 1
    ensures forall i, j :: 0 <= i < |r| && 0 <= j < |r[i]| ==> !InClass(r[i][j], cls)
    decreases |s|
  {
    if s == [] then [""]
    else if InClass(s[0], cls) then [""] + SplitRuns(DropClass(s[1..], cls), cls)
    else
      var rest := SplitRuns(s[1..], cls);
      [[s[0]] + rest[0]] + rest[1..]
  }

  /** A text with no character of the class is one piece. */
  lemma {:induction false} SplitRunsNone(a: string, cls: CharClass)
    requires forall j :: 0 <= j < |a| ==> !InClass(a[j], cls)
    ensures SplitRuns(a, cls) == [a]
    decreases |a|
  {
    if a != [] {
      SplitRunsNone(a[1..], cls);
      assert [a[0]] + a[1..] == a;
    }
  }

  /** A piece, one separator of the class and a text starting outside the
      class split into that piece and the pieces of the text. */
  lemma {:induction false} SplitRunsCons(a: string, sep: char, t: string, cls: CharClass)
    requires forall j :: 0 <= j < |a| ==> !InClass(a[j], cls)
    requires InClass(sep, cls) && t != [] && !InClass(t[0], cls)
    ensures SplitRuns(a + [sep] + t, cls) == [a] + SplitRuns(t, cls)
    decreases |a|
  {
    var s := a + [sep] + t;
    if a == [] {
      assert s[1..] == t;
    } else {
      SplitRunsCons(a[1..], sep, t, cls);
      assert s[1..] == a[1..] + [sep] + t;
      assert [a[0]] + a[1..] == a;
    }
  }

  /** `SplitRuns` undoes `Join` with one separator of the class when every
      piece is non-empty and has no character of the class. */
  lemma {:induction false} SplitRunsJoin(parts: seq<string>, sep: char, cls: CharClass)
    requires |parts| >= 1 && InClass(sep, cls)
    requires forall i :: 0 <= i < |parts| ==> parts[i] != []
    requires forall i, j :: 0 <= i < |parts| && 0 <= j < |parts[i]| ==> !InClass(parts[i][j], cls)
    ensures SplitRuns(Join(parts, [sep]), cls) == parts
  {
    if |parts| == 1 {
      SplitRunsNone(parts[0], cls);
    } else {
      var rest := Join(parts[1..], [sep]);
      SplitRunsJoin(parts[1..], sep, cls);
      JoinStartsWithFirst(parts[1..], [sep]);
      assert rest[0] == parts[1][0];
      SplitRunsCons(parts[0], sep, rest, cls);
      assert [parts[0]] + parts[1..] == parts;
    }
  }

  /** A join starts with its first piece. */
  lemma {:induction false} JoinStartsWithFirst(parts: seq<string>, sep: string)
    requires |parts| >= 1
    ensures parts[0] <= Join(parts, sep)
  {
  }

  /** Replacing one separator character by another in a join of pieces
      without either gives the join with the other separator. */
  lemma {:induction false} ReplaceJoin(parts: seq<string>, from: char, to: char)
    requires forall i :: 0 <= i < |parts| ==> from !in parts[i]
    ensures ReplaceChar(Join(parts, [from]), from, to) == Join(parts, [to])
  {
    if |parts| > 1 {
      ReplaceJoin(parts[1..], from, to);
      var tail := Join(parts[1..], [from]);
      assert ReplaceChar(parts[0] + [from] + tail, from, to)
        == ReplaceChar(parts[0], from, to) + [to] + ReplaceChar(tail, from, to);
      ReplaceNone(parts[0], from, to);
    } else if |parts| == 1 {
      ReplaceNone(parts[0], from, to);
    }
  }

  /** A character in no piece and other than the separator is not in the
      join. */
  lemma {:induction false} NotInJoin(parts: seq<string>, sep: char, c: char)
    requires c != sep
    requires forall i :: 0 <= i < |parts| ==> c !in parts[i]
    ensures c !in Join(parts, [sep])
  {
    if |parts| > 1 {
      NotInJoin(parts[1..], sep, c);
    }
  }

  lemma ReplaceNone(s: string, from: char, to: char)
    requires from !in s
    ensures ReplaceChar(s, from, to) == s
  {
  }

  lemma {:induction false} ContainsInSuffix(s: string, off: nat, needle: string)
    requires off <= |s| && Contains(s[off..], needle)
    ensures Contains(s, needle)
  {
    var t := s[off..];
    var k :| 0 <= k <= |t| - |needle| && OccursAt(t, needle, k);
    assert t[k..k + |needle|] == s[off + k..off + k + |needle|];
    assert OccursAt(s, needle, off + k);
  }

  /** Every piece of `SplitRuns` is a contiguous part of the input. */
  lemma {:induction false} SplitRunsPiecesOccur(s: string, cls: CharClass, i: nat)
    requires i < |SplitRuns(s, cls)|
    ensures Contains(s, SplitRuns(s, cls)[i])
    decreases |s|
  {
    var r := SplitRuns(s, cls);
    if s == [] || i == 0 {
      SplitRunsFirstIsPrefix(s, cls);
      assert OccursAt(s, r[0], 0);
    } else if InClass(s[0], cls) {
      var t := DropClass(s[1..], cls);
      SplitRunsPiecesOccur(t, cls, i - 1);
      assert t == s[|s| - |t|..];
      ContainsInSuffix(s, |s| - |t|, r[i]);
    } else {
      SplitRunsPiecesOccur(s[1..], cls, i);
      ContainsInSuffix(s, 1, r[i]);
    }
  }

  lemma {:induction false} SplitRunsFirstIsPrefix(s: string, cls: CharClass)
    ensures |SplitRuns(s, cls)[0]| <= |s| && SplitRuns(s, cls)[0] == s[..|SplitRuns(s, cls)[0]|]
    decreases |s|
  {
    if s != [] && !InClass(s[0], cls) {
      SplitRunsFirstIsPrefix(s[1..], cls);
      assert s[..|SplitRuns(s, cls)[0]|] == [s[0]] + s[1..][..|SplitRuns(s[1..], cls)[0]|];
    }
  }

  /** `haystack.includes(needle)`. */
  predicate Contains(haystack: string, needle: string) {
    exists k :: 0 <= k <= |haystack| - |needle| && OccursAt(haystack, needle, k)
  }

  /** `needle` occurs in `haystack` starting at position `k`. */
  predicate OccursAt(haystack: string, needle: string, k: int) {
    0 <= k <= |haystack| - |needle| && haystack[k..k + |needle|] == needle
  }

  predicate StartsWith(s: string, prefix: string) {
    |prefix| <= |s| && s[..|prefix|] == prefix
  }

  predicate EndsWith(s: string, suffix: string) {
    |suffix| <= |s| && s[|s| - |suffix|..] == suffix
  }

  /** `s.indexOf(c)`: the first position of `c`, or -1. */
  function IndexOf(s: string, c: char): (r: int)
    ensures -1 <= r < |s|
    ensures r == -1 <==> c !in s
    ensures r >= 0 ==> s[r] == c && c !in s[..r]
  {
    if s == [] then -1
    else if s[0] == c then 0
    else
      var k := IndexOf(s[1..], c);
      if k == -1 then -1
      else
        assert s[..k + 1] == [s[0]] + s[1..][..k];
        k + 1
  }

  /** `s.lastIndexOf(c)`: the last position of `c`, or -1. */
  function LastIndexOf(s: string, c: char): (r: int)
    ensures -1 <= r < |s|
    ensures r == -1 <==> c !in s
    ensures r >= 0 ==> s[r] == c && c !in s[r + 1..]
  {
    if s == [] then -1
    else if s[|s| - 1] == c then |s| - 1
    else
      var k := LastIndexOf(s[..|s| - 1], c);
      if k == -1 then
        assert s == s[..|s| - 1] + [s[|s| - 1]];
        -1
      else
        assert s[k + 1..] == s[..|s| - 1][k + 1..] + [s[|s| - 1]];
        k
  }

  /** `s.replaceAll(from, to)` for one character. */
  function ReplaceChar(s: string, from: char, to: char): (r: string)
    ensures |r| == |s|
    ensures forall i {:trigger r[i]} :: 0 <= i < |s| ==> r[i] == if s[i] == from then to else s[i]
  {
    seq(|s|, i requires 0 <= i < |s| => if s[i] == from then to else s[i])
  }

  function DigitChar(d: nat): (c: char)
    requires d < 10
    ensures IsDigit(c)
  {
    ('0' as int + d) as char
  }

  /** The decimal text of a whole number, as template literals print it. */
  function IntToString(n: int): (s: string)
    ensures s != []
    decreases if n < 0 then 1 - n else n
  {
    if n < 0 then "-" + IntToString(-n)
    else if n < 10 then [DigitChar(n)]
    else IntToString(n / 10) + [DigitChar(n % 10)]
  }

  predicate AllDigits(s: string) {
    forall i :: 0 <= i < |s| ==> IsDigit(s[i])
  }

  /** The value of a decimal numeral. */
  function DigitsValue(s: string): nat
    requires AllDigits(s)
  {
    if s == [] then 0
    else 10 * DigitsValue(s[..|s| - 1]) + (s[|s| - 1] as int - '0' as int)
  }

  /** Reading back the decimal text of a natural number gives the number. */
  lemma {:induction false} DigitsOfIntToString(n: nat)
    ensures AllDigits(IntToString(n)) && DigitsValue(IntToString(n)) == n
  {
    if n >= 10 {
      DigitsOfIntToString(n / 10);
      var s := IntToString(n);
      assert s[..|s| - 1] == IntToString(n / 10);
    }
  }
}
