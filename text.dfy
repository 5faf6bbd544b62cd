/** Strings and chunk buffers.

    The emitter writes into an array of chunks and an artifact's content is
    `buffer.join("")`, here `Concat(buffer)`.
 */
module Text {

  /** A writer's buffer: the chunks written so far, oldest first. */
  type Buffer = seq<string>

  /** `chunks.join("")`. */
  function Concat(chunks: seq<string>): string
  {
    if chunks == [] then "" else Concat(chunks[..|chunks| - 1]) + chunks[|chunks| - 1]
  }

  /** Joining two chunk sequences is joining each and concatenating. */
  lemma {:induction false} ConcatAppend(a: seq<string>, b: seq<string>)
    ensures Concat(a + b) == Concat(a) + Concat(b)
    decreases |b|
  {
    if b == [] {
      assert a + b == a;
    } else {
      var b', last := b[..|b| - 1], b[|b| - 1];
      assert (a + b)[..|a + b| - 1] == a + b';
      calc {
        Concat(a + b);
        Concat(a + b') + last;
        { ConcatAppend(a, b'); }
        (Concat(a) + Concat(b')) + last;
        Concat(a) + (Concat(b') + last);
      }
    }
  }

  /** Pushing chunks onto a buffer extends its text by those chunks, in
      order.  One lemma per number of chunks a single `write` call passes. */
  lemma ConcatPush(b: seq<string>, x1: string)
    ensures Concat(b + [x1]) == Concat(b) + x1
  {
  }

  lemma ConcatPush2(b: seq<string>, x1: string, x2: string)
    ensures Concat(b + [x1, x2]) == Concat(b) + x1 + x2
  {
    assert b + [x1, x2] == b + [x1] + [x2];
    ConcatPush(b + [x1], x2);
  }

  lemma ConcatPush3(b: seq<string>, x1: string, x2: string, x3: string)
    ensures Concat(b + [x1, x2, x3]) == Concat(b) + x1 + x2 + x3
  {
    assert b + [x1, x2, x3] == b + [x1, x2] + [x3];
    ConcatPush2(b, x1, x2);
    ConcatPush(b + [x1, x2], x3);
  }

  lemma ConcatPush4(b: seq<string>, x1: string, x2: string, x3: string, x4: string)
    ensures Concat(b + [x1, x2, x3, x4]) == Concat(b) + x1 + x2 + x3 + x4
  {
    assert b + [x1, x2, x3, x4] == b + [x1, x2, x3] + [x4];
    ConcatPush3(b, x1, x2, x3);
    ConcatPush(b + [x1, x2, x3], x4);
  }

  lemma ConcatPush5(b: seq<string>, x1: string, x2: string, x3: string, x4: string, x5: string)
    ensures Concat(b + [x1, x2, x3, x4, x5]) == Concat(b) + x1 + x2 + x3 + x4 + x5
  {
    assert b + [x1, x2, x3, x4, x5] == b + [x1, x2, x3, x4] + [x5];
    ConcatPush4(b, x1, x2, x3, x4);
    ConcatPush(b + [x1, x2, x3, x4], x5);
  }

  lemma ConcatPush6(b: seq<string>, x1: string, x2: string, x3: string, x4: string, x5: string, x6: string)
    ensures Concat(b + [x1, x2, x3, x4, x5, x6]) == Concat(b) + x1 + x2 + x3 + x4 + x5 + x6
  {
    assert b + [x1, x2, x3, x4, x5, x6] == b + [x1, x2, x3, x4, x5] + [x6];
    ConcatPush5(b, x1, x2, x3, x4, x5);
    ConcatPush(b + [x1, x2, x3, x4, x5], x6);
  }

  lemma ConcatPush7(b: seq<string>, x1: string, x2: string, x3: string, x4: string, x5: string, x6: string, x7: string)
    ensures Concat(b + [x1, x2, x3, x4, x5, x6, x7]) == Concat(b) + x1 + x2 + x3 + x4 + x5 + x6 + x7
  {
    assert b + [x1, x2, x3, x4, x5, x6, x7] == b + [x1, x2, x3, x4, x5, x6] + [x7];
    ConcatPush6(b, x1, x2, x3, x4, x5, x6);
    ConcatPush(b + [x1, x2, x3, x4, x5, x6], x7);
  }

  lemma ConcatPush8(b: seq<string>, x1: string, x2: string, x3: string, x4: string, x5: string, x6: string, x7: string, x8: string)
    ensures Concat(b + [x1, x2, x3, x4, x5, x6, x7, x8]) == Concat(b) + x1 + x2 + x3 + x4 + x5 + x6 + x7 + x8
  {
    assert b + [x1, x2, x3, x4, x5, x6, x7, x8] == b + [x1, x2, x3, x4, x5, x6, x7] + [x8];
    ConcatPush7(b, x1, x2, x3, x4, x5, x6, x7);
    ConcatPush(b + [x1, x2, x3, x4, x5, x6, x7], x8);
  }

  lemma ConcatPush9(b: seq<string>, x1: string, x2: string, x3: string, x4: string, x5: string, x6: string, x7: string, x8: string, x9: string)
    ensures Concat(b + [x1, x2, x3, x4, x5, x6, x7, x8, x9]) == Concat(b) + x1 + x2 + x3 + x4 + x5 + x6 + x7 + x8 + x9
  {
    assert b + [x1, x2, x3, x4, x5, x6, x7, x8, x9] == b + [x1, x2, x3, x4, x5, x6, x7, x8] + [x9];
    ConcatPush8(b, x1, x2, x3, x4, x5, x6, x7, x8);
    ConcatPush(b + [x1, x2, x3, x4, x5, x6, x7, x8], x9);
  }

  lemma ConcatPush10(b: seq<string>, x1: string, x2: string, x3: string, x4: string, x5: string, x6: string, x7: string, x8: string, x9: string, x10: string)
    ensures Concat(b + [x1, x2, x3, x4, x5, x6, x7, x8, x9, x10]) == Concat(b) + x1 + x2 + x3 + x4 + x5 + x6 + x7 + x8 + x9 + x10
  {
    assert b + [x1, x2, x3, x4, x5, x6, x7, x8, x9, x10] == b + [x1, x2, x3, x4, x5, x6, x7, x8, x9] + [x10];
    ConcatPush9(b, x1, x2, x3, x4, x5, x6, x7, x8, x9);
    ConcatPush(b + [x1, x2, x3, x4, x5, x6, x7, x8, x9], x10);
  }

  lemma ConcatPush11(b: seq<string>, x1: string, x2: string, x3: string, x4: string, x5: string, x6: string, x7: string, x8: string, x9: string, x10: string, x11: string)
    ensures Concat(b + [x1, x2, x3, x4, x5, x6, x7, x8, x9, x10, x11]) == Concat(b) + x1 + x2 + x3 + x4 + x5 + x6 + x7 + x8 + x9 + x10 + x11
  {
    assert b + [x1, x2, x3, x4, x5, x6, x7, x8, x9, x10, x11] == b + [x1, x2, x3, x4, x5, x6, x7, x8, x9, x10] + [x11];
    ConcatPush10(b, x1, x2, x3, x4, x5, x6, x7, x8, x9, x10);
    ConcatPush(b + [x1, x2, x3, x4, x5, x6, x7, x8, x9, x10], x11);
  }

  lemma ConcatPush12(b: seq<string>, x1: string, x2: string, x3: string, x4: string, x5: string, x6: string, x7: string, x8: string, x9: string, x10: string, x11: string, x12: string)
    ensures Concat(b + [x1, x2, x3, x4, x5, x6, x7, x8, x9, x10, x11, x12]) == Concat(b) + x1 + x2 + x3 + x4 + x5 + x6 + x7 + x8 + x9 + x10 + x11 + x12
  {
    assert b + [x1, x2, x3, x4, x5, x6, x7, x8, x9, x10, x11, x12] == b + [x1, x2, x3, x4, x5, x6, x7, x8, x9, x10, x11] + [x12];
    ConcatPush11(b, x1, x2, x3, x4, x5, x6, x7, x8, x9, x10, x11);
    ConcatPush(b + [x1, x2, x3, x4, x5, x6, x7, x8, x9, x10, x11], x12);
  }

  lemma ConcatPush13(b: seq<string>, x1: string, x2: string, x3: string, x4: string, x5: string, x6: string, x7: string, x8: string, x9: string, x10: string, x11: string, x12: string, x13: string)
    ensures Concat(b + [x1, x2, x3, x4, x5, x6, x7, x8, x9, x10, x11, x12, x13]) == Concat(b) + x1 + x2 + x3 + x4 + x5 + x6 + x7 + x8 + x9 + x10 + x11 + x12 + x13
  {
    assert b + [x1, x2, x3, x4, x5, x6, x7, x8, x9, x10, x11, x12, x13] == b + [x1, x2, x3, x4, x5, x6, x7, x8, x9, x10, x11, x12] + [x13];
    ConcatPush12(b, x1, x2, x3, x4, x5, x6, x7, x8, x9, x10, x11, x12);
    ConcatPush(b + [x1, x2, x3, x4, x5, x6, x7, x8, x9, x10, x11, x12], x13);
  }
  /** String concatenation regroups; the proofs below apply it step by step. */
  lemma Assoc(a: string, b: string, c: string)
    ensures a + b + c == a + (b + c)
  {
  }

  /** Regrouping a left-nested concatenation after its first operand: the
      text a buffer held, followed by the pieces one emitter wrote, is that
      text followed by the emitter's whole text. */
  lemma Regroup2(p: string, x1: string, x2: string)
    ensures p + x1 + x2 == p + (x1 + x2)
  {
    Assoc(p, x1, x2);
  }

  lemma Regroup3(p: string, x1: string, x2: string, x3: string)
    ensures p + x1 + x2 + x3 == p + (x1 + x2 + x3)
  {
    Regroup2(p, x1, x2);
    Assoc(p, x1 + x2, x3);
  }

  lemma Regroup4(p: string, x1: string, x2: string, x3: string, x4: string)
    ensures p + x1 + x2 + x3 + x4 == p + (x1 + x2 + x3 + x4)
  {
    Regroup3(p, x1, x2, x3);
    Assoc(p, x1 + x2 + x3, x4);
  }

  lemma Regroup5(p: string, x1: string, x2: string, x3: string, x4: string, x5: string)
    ensures p + x1 + x2 + x3 + x4 + x5 == p + (x1 + x2 + x3 + x4 + x5)
  {
    Regroup4(p, x1, x2, x3, x4);
    Assoc(p, x1 + x2 + x3 + x4, x5);
  }

  lemma Regroup6(p: string, x1: string, x2: string, x3: string, x4: string, x5: string, x6: string)
    ensures p + x1 + x2 + x3 + x4 + x5 + x6 == p + (x1 + x2 + x3 + x4 + x5 + x6)
  {
    Regroup5(p, x1, x2, x3, x4, x5);
    Assoc(p, x1 + x2 + x3 + x4 + x5, x6);
  }

  lemma Regroup7(p: string, x1: string, x2: string, x3: string, x4: string, x5: string, x6: string, x7: string)
    ensures p + x1 + x2 + x3 + x4 + x5 + x6 + x7 == p + (x1 + x2 + x3 + x4 + x5 + x6 + x7)
  {
    Regroup6(p, x1, x2, x3, x4, x5, x6);
    Assoc(p, x1 + x2 + x3 + x4 + x5 + x6, x7);
  }

  lemma Regroup8(p: string, x1: string, x2: string, x3: string, x4: string, x5: string, x6: string, x7: string, x8: string)
    ensures p + x1 + x2 + x3 + x4 + x5 + x6 + x7 + x8 == p + (x1 + x2 + x3 + x4 + x5 + x6 + x7 + x8)
  {
    Regroup7(p, x1, x2, x3, x4, x5, x6, x7);
    Assoc(p, x1 + x2 + x3 + x4 + x5 + x6 + x7, x8);
  }

  lemma Regroup9(p: string, x1: string, x2: string, x3: string, x4: string, x5: string, x6: string, x7: string, x8: string, x9: string)
    ensures p + x1 + x2 + x3 + x4 + x5 + x6 + x7 + x8 + x9 == p + (x1 + x2 + x3 + x4 + x5 + x6 + x7 + x8 + x9)
  {
    Regroup8(p, x1, x2, x3, x4, x5, x6, x7, x8);
    Assoc(p, x1 + x2 + x3 + x4 + x5 + x6 + x7 + x8, x9);
  }

  lemma Regroup10(p: string, x1: string, x2: string, x3: string, x4: string, x5: string, x6: string, x7: string, x8: string, x9: string, x10: string)
    ensures p + x1 + x2 + x3 + x4 + x5 + x6 + x7 + x8 + x9 + x10 == p + (x1 + x2 + x3 + x4 + x5 + x6 + x7 + x8 + x9 + x10)
  {
    Regroup9(p, x1, x2, x3, x4, x5, x6, x7, x8, x9);
    Assoc(p, x1 + x2 + x3 + x4 + x5 + x6 + x7 + x8 + x9, x10);
  }

  lemma Regroup11(p: string, x1: string, x2: string, x3: string, x4: string, x5: string, x6: string, x7: string, x8: string, x9: string, x10: string, x11: string)
    ensures p + x1 + x2 + x3 + x4 + x5 + x6 + x7 + x8 + x9 + x10 + x11 == p + (x1 + x2 + x3 + x4 + x5 + x6 + x7 + x8 + x9 + x10 + x11)
  {
    Regroup10(p, x1, x2, x3, x4, x5, x6, x7, x8, x9, x10);
    Assoc(p, x1 + x2 + x3 + x4 + x5 + x6 + x7 + x8 + x9 + x10, x11);
  }

  lemma Regroup12(p: string, x1: string, x2: string, x3: string, x4: string, x5: string, x6: string, x7: string, x8: string, x9: string, x10: string, x11: string, x12: string)
    ensures p + x1 + x2 + x3 + x4 + x5 + x6 + x7 + x8 + x9 + x10 + x11 + x12 == p + (x1 + x2 + x3 + x4 + x5 + x6 + x7 + x8 + x9 + x10 + x11 + x12)
  {
    Regroup11(p, x1, x2, x3, x4, x5, x6, x7, x8, x9, x10, x11);
    Assoc(p, x1 + x2 + x3 + x4 + x5 + x6 + x7 + x8 + x9 + x10 + x11, x12);
  }

  lemma Regroup13(p: string, x1: string, x2: string, x3: string, x4: string, x5: string, x6: string, x7: string, x8: string, x9: string, x10: string, x11: string, x12: string, x13: string)
    ensures p + x1 + x2 + x3 + x4 + x5 + x6 + x7 + x8 + x9 + x10 + x11 + x12 + x13 == p + (x1 + x2 + x3 + x4 + x5 + x6 + x7 + x8 + x9 + x10 + x11 + x12 + x13)
  {
    Regroup12(p, x1, x2, x3, x4, x5, x6, x7, x8, x9, x10, x11, x12);
    Assoc(p, x1 + x2 + x3 + x4 + x5 + x6 + x7 + x8 + x9 + x10 + x11 + x12, x13);
  }

  lemma Regroup14(p: string, x1: string, x2: string, x3: string, x4: string, x5: string, x6: string, x7: string, x8: string, x9: string, x10: string, x11: string, x12: string, x13: string, x14: string)
    ensures p + x1 + x2 + x3 + x4 + x5 + x6 + x7 + x8 + x9 + x10 + x11 + x12 + x13 + x14 == p + (x1 + x2 + x3 + x4 + x5 + x6 + x7 + x8 + x9 + x10 + x11 + x12 + x13 + x14)
  {
    Regroup13(p, x1, x2, x3, x4, x5, x6, x7, x8, x9, x10, x11, x12, x13);
    Assoc(p, x1 + x2 + x3 + x4 + x5 + x6 + x7 + x8 + x9 + x10 + x11 + x12 + x13, x14);
  }

  lemma Regroup15(p: string, x1: string, x2: string, x3: string, x4: string, x5: string, x6: string, x7: string, x8: string, x9: string, x10: string, x11: string, x12: string, x13: string, x14: string, x15: string)
    ensures p + x1 + x2 + x3 + x4 + x5 + x6 + x7 + x8 + x9 + x10 + x11 + x12 + x13 + x14 + x15 == p + (x1 + x2 + x3 + x4 + x5 + x6 + x7 + x8 + x9 + x10 + x11 + x12 + x13 + x14 + x15)
  {
    Regroup14(p, x1, x2, x3, x4, x5, x6, x7, x8, x9, x10, x11, x12, x13, x14);
    Assoc(p, x1 + x2 + x3 + x4 + x5 + x6 + x7 + x8 + x9 + x10 + x11 + x12 + x13 + x14, x15);
  }

  lemma Regroup16(p: string, x1: string, x2: string, x3: string, x4: string, x5: string, x6: string, x7: string, x8: string, x9: string, x10: string, x11: string, x12: string, x13: string, x14: string, x15: string, x16: string)
    ensures p + x1 + x2 + x3 + x4 + x5 + x6 + x7 + x8 + x9 + x10 + x11 + x12 + x13 + x14 + x15 + x16 == p + (x1 + x2 + x3 + x4 + x5 + x6 + x7 + x8 + x9 + x10 + x11 + x12 + x13 + x14 + x15 + x16)
  {
    Regroup15(p, x1, x2, x3, x4, x5, x6, x7, x8, x9, x10, x11, x12, x13, x14, x15);
    Assoc(p, x1 + x2 + x3 + x4 + x5 + x6 + x7 + x8 + x9 + x10 + x11 + x12 + x13 + x14 + x15, x16);
  }
  /** `parts.join(sep)` on strings. */
  function Join(parts: seq<string>, sep: string): string
  {
    if |parts| == 0 then ""
    else if |parts| == 1 then parts[0]
    else Join(parts[..|parts| - 1], sep) + sep + parts[|parts| - 1]
  }

  /** Joining one more part. */
  lemma JoinSnoc(parts: seq<string>, last: string, sep: string)
    ensures Join(parts + [last], sep) == if |parts| == 0 then last else Join(parts, sep) + sep + last
  {
    assert (parts + [last])[..|parts|] == parts;
  }

  /** `k` space characters. */
  function Spaces(k: nat): (r: string)
    ensures |r| == k && forall i :: 0 <= i < k ==> r[i] == ' '
  {
    seq(k, _ => ' ')
  }

  predicate EndsWith(s: string, suffix: string)
  {
    |suffix| <= |s| && s[|s| - |suffix|..] == suffix
  }

  predicate StartsWith(s: string, prefix: string)
  {
    |prefix| <= |s| && s[..|prefix|] == prefix
  }

  lemma EndsWithConcat(x: string, y: string)
    ensures EndsWith(x + y, y)
  {
    assert (x + y)[|x|..] == y;
  }

  lemma StartsWithConcat(x: string, y: string)
    ensures StartsWith(x + y, x)
  {
    assert (x + y)[..|x|] == x;
  }

  /** Every character of `s` is a decimal digit. */
  predicate IsDigits(s: string)
  {
    forall i :: 0 <= i < |s| ==> '0' <= s[i] <= '9'
  }

  /** A decimal numeral as `String` writes it: at least one digit, and no
      leading zero unless the numeral is `0` itself. */
  predicate IsNumeral(s: string)
  {
    IsDigits(s) && s != [] && (|s| > 1 ==> s[0] != '0')
  }

  /** The number a string of decimal digits denotes. */
  ghost function DecimalValue(s: string): nat
    requires IsDigits(s)
  {
    if s == [] then 0 else 10 * DecimalValue(s[..|s| - 1]) + (s[|s| - 1] as int - '0' as int)
  }

  /** `String(n)` of a JavaScript number that holds an integer: the numeral
      of its magnitude, after a `-` exactly when it is negative. */
  function IntToString(n: int): (r: string)
    ensures |r| > 0
    ensures r[0] == '-' <==> n < 0
    ensures n >= 0 ==> IsNumeral(r) && DecimalValue(r) == n
    ensures n < 0 ==> IsNumeral(r[1..]) && DecimalValue(r[1..]) == -n
  {
    if n < 0 then
      var m := NatToString(-n);
      assert ("-" + m)[1..] == m;
      "-" + m
    else NatToString(n)
  }

  /** The decimal numeral of `n`. */
  function NatToString(n: nat): (r: string)
    ensures IsNumeral(r) && DecimalValue(r) == n
    ensures r[0] == '0' ==> n == 0
  {
    if n < 10 then [Digit(n)]
    else
      var r := NatToString(n / 10) + [Digit(n % 10)];
      assert r[..|r| - 1] == NatToString(n / 10);
      r
  }

  function Digit(d: nat): (ch: char)
    requires d < 10
    ensures '0' <= ch <= '9' && ch as int - '0' as int == d
  {
    "0123456789"[d]
  }

  /** A digit string with a nonzero first digit denotes a positive number. */
  lemma {:induction false} LeadingDigitPositive(s: string)
    requires IsDigits(s) && s != [] && s[0] != '0'
    ensures DecimalValue(s) > 0
  {
    if |s| > 1 {
      var p := s[..|s| - 1];
      assert p[0] == s[0];
      LeadingDigitPositive(p);
    }
  }

  /** Every numeral is the one `NatToString` writes for its value, so the
      numeral of a number is unique. */
  lemma {:induction false} NumeralRoundTrip(s: string)
    requires IsNumeral(s)
    ensures NatToString(DecimalValue(s)) == s
  {
    var d := s[|s| - 1] as int - '0' as int;
    if |s| == 1 {
      assert Digit(d) == s[0];
    } else {
      var p := s[..|s| - 1];
      assert p[0] == s[0];
      assert IsNumeral(p);
      LeadingDigitPositive(p);
      NumeralRoundTrip(p);
      var v := DecimalValue(s);
      assert v / 10 == DecimalValue(p) && v % 10 == d;
      assert Digit(d) == s[|s| - 1];
      assert s == p + [s[|s| - 1]];
    }
  }
}
