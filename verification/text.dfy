/** String helpers shared by the pages: the JavaScript string operations the core relies on. */
module Text {

  // ----- Number.prototype.toString on integers -------------------------------------------

  function DigitChar(d: nat): (c: char)
    requires d < 10
    ensures '0' <= c <= '9'
  {
    ['0', '1', '2', '3', '4', '5', '6', '7', '8', '9'][d]
  }

  function DigitValue(c: char): nat
    requires '0' <= c <= '9'
  {
    (c as int - '0' as int) as nat
  }

  predicate IsDigits(s: string) {
    forall i :: 0 <= i < |s| ==> '0' <= s[i] <= '9'
  }

  /** Decimal rendering of a natural number, most significant digit first, no leading zeros. */
  function NatToString(n: nat): (s: string)
    ensures |s| >= 1 && IsDigits(s)
    ensures s[0] == '0' ==> n == 0
    decreases n
  {
    if n < 10 then [DigitChar(n)] else NatToString(n / 10) + [DigitChar(n % 10)]
  }

  /** `n.toString()` for an integral JavaScript number: a leading '-' for negatives. */
  function IntToString(n: int): (s: string)
  {
    if n < 0 then "-" + NatToString(-n) else NatToString(n)
  }

  /** The value of a string of decimal digits (the reading of `NatToString`). */
  function DecimalValue(s: string): nat
    requires IsDigits(s)
  {
    if s == [] then 0 else DecimalValue(s[..|s| - 1]) * 10 + DigitValue(s[|s| - 1])
  }

  lemma {:induction false} DecimalRoundTrip(n: nat)
    ensures DecimalValue(NatToString(n)) == n
    decreases n
  {
    if n >= 10 {
      var s := NatToString(n);
      DecimalRoundTrip(n / 10);
      assert s[..|s| - 1] == NatToString(n / 10);
      assert DigitValue(s[|s| - 1]) == n % 10;
    }
  }

  /** Distinct integers render as distinct strings, so a year shown on the page identifies the number. */
  lemma IntToStringInjective(m: int, n: int)
    requires IntToString(m) == IntToString(n)
    ensures m == n
  {
    SignOf(m);
    SignOf(n);
    var a: nat := if m < 0 then -m else m;
    var b: nat := if n < 0 then -n else n;
    assert NatToString(a) == NatToString(b);
    DecimalRoundTrip(a);
    DecimalRoundTrip(b);
  }

  lemma SignOf(n: int)
    ensures IntToString(n)[0] == '-' <==> n < 0
    ensures n < 0 ==> IntToString(n)[1..] == NatToString(-n)
    ensures n >= 0 ==> IntToString(n) == NatToString(n)
  {
    if n >= 0 {
      var s := NatToString(n);
      assert '0' <= s[0] <= '9';
    }
  }

  // ----- String.prototype.split(c) and Array.prototype.join(sep) ------------------------

  function Count(s: string, c: char): nat {
    if s == [] then 0 else (if s[0] == c then 1 else 0) + Count(s[1..], c)
  }

  /** `s.split(c)` with a one-character separator: the empty string gives `[""]`,
      and a trailing separator gives a trailing empty piece. */
  function Split(s: string, c: char): (parts: seq<string>)
    ensures |parts| == Count(s, c) + 1
    ensures forall i :: 0 <= i < |parts| ==> c !in parts[i]
  {
    if s == [] then [""]
    else if s[0] == c then [""] + Split(s[1..], c)
    else
      var rest := Split(s[1..], c);
      [[s[0]] + rest[0]] + rest[1..]
  }

  /** `parts.join(sep)`. */
  function Join(parts: seq<string>, sep: string): string {
    if parts == [] then ""
    else if |parts| == 1 then parts[0]
    else parts[0] + sep + Join(parts[1..], sep)
  }

  /** Joining the pieces of a split with the separator gives back the original text. */
  lemma {:induction false} JoinSplit(s: string, c: char)
    ensures Join(Split(s, c), [c]) == s
  {
    if s == [] {
    } else if s[0] == c {
      JoinSplit(s[1..], c);
      var rest := Split(s[1..], c);
      assert Split(s, c) == [""] + rest;
      assert Join(Split(s, c), [c]) == "" + [c] + Join(rest, [c]);
    } else {
      JoinSplit(s[1..], c);
      var rest := Split(s[1..], c);
      var parts := [[s[0]] + rest[0]] + rest[1..];
      assert Split(s, c) == parts;
      if |rest| == 1 {
        assert Join(parts, [c]) == [s[0]] + rest[0];
      } else {
        assert parts[1..] == rest[1..];
        assert Join(rest, [c]) == rest[0] + [c] + Join(rest[1..], [c]);
        assert Join(parts, [c]) == [s[0]] + rest[0] + [c] + Join(rest[1..], [c]);
      }
    }
  }

  /** Splitting a join of separator-free pieces gives back the pieces. */
  lemma {:induction false} SplitJoin(parts: seq<string>, c: char)
    requires |parts| >= 1
    requires forall i :: 0 <= i < |parts| ==> c !in parts[i]
    ensures Split(Join(parts, [c]), c) == parts
    decreases |parts|, |parts[0]|
  {
    if |parts| == 1 {
      SplitNoSeparator(parts[0], c);
    } else if parts[0] == [] {
      SplitJoin(parts[1..], c);
      assert Join(parts, [c]) == [c] + Join(parts[1..], [c]);
      assert Split(Join(parts, [c]), c) == [""] + parts[1..];
    } else {
      var p := parts[0];
      var shorter := [p[1..]] + parts[1..];
      assert c !in p[1..] by { assert forall k :: 0 <= k < |p| - 1 ==> p[1..][k] == p[k + 1]; }
      SplitJoin(shorter, c);
      assert shorter[1..] == parts[1..];
      assert Join(shorter, [c]) == p[1..] + [c] + Join(parts[1..], [c]);
      assert Join(parts, [c]) == [p[0]] + Join(shorter, [c]);
      var rest := Split(Join(shorter, [c]), c);
      assert rest == shorter;
      assert [p[0]] + p[1..] == p;
      assert Split(Join(parts, [c]), c) == [[p[0]] + rest[0]] + rest[1..];
    }
  }

  lemma {:induction false} SplitNoSeparator(s: string, c: char)
    requires c !in s
    ensures Split(s, c) == [s]
  {
    if s != [] {
      assert c !in s[1..] by { assert forall k :: 0 <= k < |s| - 1 ==> s[1..][k] == s[k + 1]; }
      SplitNoSeparator(s[1..], c);
      assert [s[0]] + s[1..] == s;
    }
  }

  // ----- Concatenation of a list of strings, and where each piece lands ------------------

  function Concat(parts: seq<string>): string {
    if parts == [] then "" else parts[0] + Concat(parts[1..])
  }

  /** The index in `Concat(parts)` at which `parts[k]` begins. */
  function Offset(parts: seq<string>, k: nat): nat
    requires k <= |parts|
  {
    if k == 0 then 0 else |parts[0]| + Offset(parts[1..], k - 1)
  }

  /** Piece `k` sits verbatim at its offset, and the pieces after it start no earlier than its end. */
  lemma {:induction false} ConcatAt(parts: seq<string>, k: nat)
    requires k < |parts|
    ensures Offset(parts, k) + |parts[k]| == Offset(parts, k + 1) <= |Concat(parts)|
    ensures Concat(parts)[Offset(parts, k)..Offset(parts, k + 1)] == parts[k]
  {
    if k > 0 {
      ConcatAt(parts[1..], k - 1);
      var tail := Concat(parts[1..]);
      assert Concat(parts) == parts[0] + tail;
      var o := Offset(parts[1..], k - 1);
      assert Concat(parts)[|parts[0]| + o..|parts[0]| + o + |parts[k]|] == tail[o..o + |parts[k]|];
    }
  }

  /** When piece `k` is `header + line`, the line sits right after the header inside any
      text that embeds the concatenation. */
  lemma LineInside(pre: string, parts: seq<string>, post: string, k: nat, header: string, line: string, o: nat)
    requires k < |parts| && parts[k] == header + line
    requires o == |pre| + Offset(parts, k) + |header|
    ensures o + |line| <= |pre + Concat(parts) + post|
    ensures (pre + Concat(parts) + post)[o..o + |line|] == line
  {
    ConcatAt(parts, k);
    var whole := Concat(parts);
    var start := Offset(parts, k);
    var x := start + |header|;
    var y := x + |line|;
    assert whole[start..start + |parts[k]|] == header + line;
    assert whole[x..y] == line by {
      forall j | 0 <= j < |line| ensures whole[x..y][j] == line[j] {
        assert whole[x + j] == whole[start..start + |parts[k]|][|header| + j];
      }
    }
    SliceOfMiddle(pre, whole, post, x, y);
  }

  /** A piece's line, after its header, lies at the piece's offset in the concatenation. */
  lemma PieceLine(whole: string, parts: seq<string>, k: nat, header: string, line: string, o: nat)
    requires whole == Concat(parts)
    requires k < |parts| && parts[k] == header + line
    requires o == Offset(parts, k) + |header|
    ensures o + |line| <= |whole|
    ensures whole[o..o + |line|] == line
  {
    LineInside([], parts, [], k, header, line, o);
    assert [] + Concat(parts) + [] == Concat(parts);
  }

  /** Offsets grow with the index. */
  lemma {:induction false} OffsetMonotone(parts: seq<string>, j: nat, k: nat)
    requires j <= k <= |parts|
    ensures Offset(parts, j) <= Offset(parts, k)
  {
    if j > 0 {
      OffsetMonotone(parts[1..], j - 1, k - 1);
    } else if k > 0 {
      OffsetMonotone(parts[1..], 0, k - 1);
    }
  }

  /** A line inside piece `i` ends before piece `j` starts when `i < j`. */
  lemma PieceEndsBefore(parts: seq<string>, i: nat, j: nat, header: string, line: string)
    requires i < j <= |parts| && parts[i] == header + line
    ensures Offset(parts, i) + |header| + |line| <= Offset(parts, j)
  {
    ConcatAt(parts, i);
    OffsetMonotone(parts, i + 1, j);
  }

  lemma SuffixOfAppend(a: string, b: string)
    ensures (a + b)[|a + b| - |b|..] == b
  {
    assert forall k :: 0 <= k < |b| ==> (a + b)[|a| + k] == b[k];
  }

  lemma PrefixOfAppend(a: string, b: string)
    ensures a <= a + b
  {
    assert (a + b)[..|a|] == a;
  }

  /** A piece found inside `b` is found at the shifted position inside `a + b`. */
  lemma Within(a: string, b: string, x: nat, piece: string, o: nat)
    requires x + |piece| <= |b| && b[x..x + |piece|] == piece
    requires o == |a| + x
    ensures o + |piece| <= |a + b|
    ensures (a + b)[o..o + |piece|] == piece
  {
    assert forall j :: x <= j < x + |piece| ==> (a + b)[|a| + j] == b[j];
  }

  /** A piece found at `x` inside `b` is found at `|a| + x` inside `a + b + c`. */
  lemma Embedded(a: string, b: string, c: string, x: nat, piece: string, o: nat)
    requires x + |piece| <= |b| && b[x..x + |piece|] == piece
    requires o == |a| + x
    ensures o + |piece| <= |a + b + c|
    ensures (a + b + c)[o..o + |piece|] == piece
  {
    SliceOfMiddle(a, b, c, x, x + |piece|);
  }

  /** The same, for a text already known to be `a + b + c`. */
  lemma EmbeddedIn(whole: string, a: string, b: string, c: string, x: nat, piece: string, o: nat)
    requires whole == a + b + c
    requires x + |piece| <= |b| && b[x..x + |piece|] == piece
    requires o == |a| + x
    ensures o + |piece| <= |whole|
    ensures whole[o..o + |piece|] == piece
  {
    Embedded(a, b, c, x, piece, o);
  }

  /** A slice of the middle part of `a + b + c` is the same slice of `b`. */
  lemma SliceOfMiddle(a: string, b: string, c: string, x: nat, y: nat)
    requires x <= y <= |b|
    ensures (a + b + c)[|a| + x..|a| + y] == b[x..y]
  {
    assert forall k :: x <= k < y ==> (a + b + c)[|a| + k] == b[k];
  }

  // ----- String.prototype.trim ------------------------------------------------------------

  /** The characters JavaScript's `trim` removes (WhiteSpace and LineTerminator). */
  predicate IsWhitespace(c: char) {
    c == ' ' || c == '\t' || c == '\n' || c == '\r' || c == '\U{000B}' || c == '\U{000C}'
    || c == '\U{00A0}' || c == '\U{1680}' || ('\U{2000}' <= c <= '\U{200A}')
    || c == '\U{2028}' || c == '\U{2029}' || c == '\U{202F}' || c == '\U{205F}'
    || c == '\U{3000}' || c == '\U{FEFF}'
  }

  function TrimStart(s: string): (r: string)
    ensures |r| <= |s| && r == s[|s| - |r|..]
    ensures r == [] || !IsWhitespace(r[0])
    ensures forall i :: 0 <= i < |s| - |r| ==> IsWhitespace(s[i])
  {
    if s != [] && IsWhitespace(s[0]) then TrimStart(s[1..]) else s
  }

  function TrimEnd(s: string): (r: string)
    ensures |r| <= |s| && r == s[..|r|]
    ensures r == [] || !IsWhitespace(r[|r| - 1])
    ensures forall i :: |r| <= i < |s| ==> IsWhitespace(s[i])
  {
    if s != [] && IsWhitespace(s[|s| - 1]) then TrimEnd(s[..|s| - 1]) else s
  }

  /** `s.trim()`: the longest slice of `s` that neither starts nor ends with whitespace. */
  function Trim(s: string): string {
    TrimEnd(TrimStart(s))
  }

  lemma TrimUnchanged(s: string)
    requires s == [] || (!IsWhitespace(s[0]) && !IsWhitespace(s[|s| - 1]))
    ensures Trim(s) == s
  {
  }

  // ----- String.prototype.toLowerCase on ASCII --------------------------------------------

  function LowerAscii(c: char): (r: char)
    ensures !('A' <= r <= 'Z')
    ensures !('A' <= c <= 'Z') ==> r == c
  {
    if 'A' <= c <= 'Z' then (c as int + 32) as char else c
  }

  function ToLowerAscii(s: string): (r: string)
    ensures |r| == |s|
    ensures forall i :: 0 <= i < |s| ==> r[i] == LowerAscii(s[i])
  {
    if s == [] then [] else [LowerAscii(s[0])] + ToLowerAscii(s[1..])
  }
}
