/** Character-sequence helpers the Treasure Map grammar and the path network rest on:
    code point order, `str.find`, `str.split`, `str.join`, `str.strip`, `str.lower` and `str(int)`. */
module Text {

  datatype Option<+T> = None | Some(value: T)

  // --- Code point order (Python's `<` on strings) ---

  predicate Less(a: string, b: string) {
    if b == "" then false
    else if a == "" then true
    else if a[0] != b[0] then a[0] < b[0]
    else Less(a[1..], b[1..])
  }

  lemma {:induction false} LessIrreflexive(a: string)
    ensures !Less(a, a)
  {
    if a != "" {
      LessIrreflexive(a[1..]);
    }
  }

  /** The order is strict and total: exactly one of `a < b`, `a == b`, `b < a` holds. */
  lemma {:induction false} LessTrichotomy(a: string, b: string)
    ensures Less(a, b) || Less(b, a) || a == b
    ensures !(Less(a, b) && Less(b, a))
    ensures !Less(a, a)
  {
    LessIrreflexive(a);
    if a != "" && b != "" && a[0] == b[0] {
      LessTrichotomy(a[1..], b[1..]);
      assert a == [a[0]] + a[1..] && b == [b[0]] + b[1..];
    }
  }

  lemma {:induction false} LessTransitive(a: string, b: string, c: string)
    requires Less(a, b) && Less(b, c)
    ensures Less(a, c)
  {
    if a != "" && a[0] == b[0] == c[0] {
      LessTransitive(a[1..], b[1..], c[1..]);
    }
  }

  // --- find, split, join ---

  function Find(s: string, c: char): (i: int)
    ensures -1 <= i < |s|
    ensures i < 0 <==> c !in s
    ensures 0 <= i ==> s[i] == c && c !in s[..i]
  {
    if s == "" then -1
    else if s[0] == c then 0
    else
      var r := Find(s[1..], c);
      assert s == [s[0]] + s[1..];
      if r < 0 then -1 else
        assert s[..r + 1] == [s[0]] + s[1..][..r];
        r + 1
  }

  /** `Find` is the first position: any split of `s` at a `c` with none before it is the one found. */
  lemma FindFirst(pre: string, c: char, post: string)
    requires c !in pre
    ensures Find(pre + [c] + post, c) == |pre|
  {
    var s := pre + [c] + post;
    assert s[|pre|] == c;
    assert forall i :: 0 <= i < |pre| ==> s[i] == pre[i];
  }

  function Split(s: string, c: char): (parts: seq<string>)
    ensures parts != []
    ensures forall p :: p in parts ==> c !in p
    decreases |s|
  {
    var i := Find(s, c);
    if i < 0 then [s] else [s[..i]] + Split(s[i + 1..], c)
  }

  function Join(parts: seq<string>, c: char): string {
    if parts == [] then ""
    else if |parts| == 1 then parts[0]
    else parts[0] + [c] + Join(parts[1..], c)
  }

  lemma {:induction false} SplitJoin(parts: seq<string>, c: char)
    requires parts != [] && forall p :: p in parts ==> c !in p
    ensures Split(Join(parts, c), c) == parts
  {
    if |parts| > 1 {
      var tail := Join(parts[1..], c);
      SplitJoin(parts[1..], c);
      FindFirst(parts[0], c, tail);
      var s := parts[0] + [c] + tail;
      assert s[..|parts[0]|] == parts[0] && s[|parts[0]| + 1..] == tail;
      assert parts == [parts[0]] + parts[1..];
    }
  }

  // --- strip, lower ---

  predicate Space(c: char) {
    c == ' ' || c == '\t' || c == '\n' || c == '\r'
  }

  function LStrip(s: string): (r: string)
    ensures |r| <= |s|
    ensures r != "" ==> !Space(r[0])
    ensures s != "" && !Space(s[0]) ==> r == s
  {
    if s != "" && Space(s[0]) then LStrip(s[1..]) else s
  }

  function RStrip(s: string): (r: string)
    ensures r <= s
    ensures r != "" ==> !Space(r[|r| - 1])
    ensures s != "" && !Space(s[|s| - 1]) ==> r == s
  {
    if s != "" && Space(s[|s| - 1]) then RStrip(s[..|s| - 1]) else s
  }

  function Strip(s: string): string {
    RStrip(LStrip(s))
  }

  lemma StripIdempotent(s: string)
    ensures Strip(Strip(s)) == Strip(s)
  {
    var l := LStrip(s);
    var r := RStrip(l);
    if r != "" {
      assert r[0] == l[0];
    }
  }

  function LowerChar(c: char): char {
    if 'A' <= c <= 'Z' then c - 'A' + 'a' else c
  }

  function Lower(s: string): string {
    seq(|s|, i requires 0 <= i < |s| => LowerChar(s[i]))
  }

  lemma LowerIdempotent(s: string)
    ensures Lower(Lower(s)) == Lower(s)
  {
  }

  // --- str(int) and int(str), for kinds ---

  predicate Digit(c: char) {
    '0' <= c <= '9'
  }

  function Decimal(n: nat): string {
    if n < 10 then ['0' + n as char] else Decimal(n / 10) + ['0' + (n % 10) as char]
  }

  predicate FiveDigits(s: string) {
    |s| == 5 && Digit(s[0]) && Digit(s[1]) && Digit(s[2]) && Digit(s[3]) && Digit(s[4])
  }

  function DigitValue(c: char): (d: nat)
    requires Digit(c)
    ensures d < 10
  {
    (c - '0') as nat
  }

  function FiveDigitValue(s: string): nat
    requires FiveDigits(s)
  {
    10000 * DigitValue(s[0]) + 1000 * DigitValue(s[1]) + 100 * DigitValue(s[2])
    + 10 * DigitValue(s[3]) + DigitValue(s[4])
  }

  lemma FiveDigitValueInjective(a: string, b: string)
    requires FiveDigits(a) && FiveDigits(b) && FiveDigitValue(a) == FiveDigitValue(b)
    ensures a == b
  {
    PositionalUnique(DigitValue(a[0]), DigitValue(a[1]), DigitValue(a[2]), DigitValue(a[3]), DigitValue(a[4]),
                     DigitValue(b[0]), DigitValue(b[1]), DigitValue(b[2]), DigitValue(b[3]), DigitValue(b[4]));
  }

  lemma PositionalUnique(a0: nat, a1: nat, a2: nat, a3: nat, a4: nat, b0: nat, b1: nat, b2: nat, b3: nat, b4: nat)
    requires a1 < 10 && a2 < 10 && a3 < 10 && a4 < 10
    requires b1 < 10 && b2 < 10 && b3 < 10 && b4 < 10
    requires 10000 * a0 + 1000 * a1 + 100 * a2 + 10 * a3 + a4 == 10000 * b0 + 1000 * b1 + 100 * b2 + 10 * b3 + b4
    ensures a0 == b0 && a1 == b1 && a2 == b2 && a3 == b3 && a4 == b4
  {
  }

  /** `int(s)` of a string of digits. */
  function Number(s: string): nat
    requires forall c :: c in s ==> Digit(c)
  {
    if s == "" then 0 else 10 * Number(s[..|s| - 1]) + DigitValue(s[|s| - 1])
  }

  /** `int(str(n)) == n`. */
  lemma {:induction false} NumberOfDecimal(n: nat)
    ensures (forall c :: c in Decimal(n) ==> Digit(c)) && Number(Decimal(n)) == n
  {
    if n < 10 {
      assert Decimal(n)[..0] == "";
    } else {
      NumberOfDecimal(n / 10);
      assert Decimal(n)[..|Decimal(n)| - 1] == Decimal(n / 10);
    }
  }

  lemma FiveDigitNumber(s: string)
    requires FiveDigits(s)
    ensures Number(s) == FiveDigitValue(s)
  {
    assert s[..4][..3] == s[..3] && s[..3][..2] == s[..2] && s[..2][..1] == s[..1] && s[..1][..0] == s[..0] == "";
    assert Number(s[..1]) == DigitValue(s[0]);
    assert Number(s[..2]) == 10 * Number(s[..1]) + DigitValue(s[1]);
    assert Number(s[..3]) == 10 * Number(s[..2]) + DigitValue(s[2]);
    assert Number(s[..4]) == 10 * Number(s[..3]) + DigitValue(s[3]);
  }
}
