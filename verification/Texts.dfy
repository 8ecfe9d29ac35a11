/** Dotted names: joining, splitting, and decimal numbers. */
module Texts {

  /** NESTED_FIELD_SEPARATOR, at its default. */
  const SEPARATOR: char := '.'

  /** str.join with the separator. */
  function Join(parts: seq<string>): string
    requires |parts| > 0
  {
    if |parts| == 1 then parts[0] else Join(parts[..|parts| - 1]) + [SEPARATOR] + parts[|parts| - 1]
  }

  /** str.split on the separator. */
  function Split(s: string): (parts: seq<string>)
    ensures |parts| > 0
  {
    if s == "" then [""]
    else
      var before := Split(s[..|s| - 1]);
      var c := s[|s| - 1];
      if c == SEPARATOR then before + [""]
      else before[..|before| - 1] + [before[|before| - 1] + [c]]
  }

  ghost predicate Free(part: string) {
    SEPARATOR !in part
  }

  ghost predicate AllFree(parts: seq<string>) {
    forall i :: 0 <= i < |parts| ==> Free(parts[i])
  }

  lemma {:induction false} SplitAppend(s: string, part: string)
    requires Free(part)
    ensures Split(s + [SEPARATOR] + part) == Split(s) + [part]
    decreases |part|
  {
    var t := s + [SEPARATOR] + part;
    if part == "" {
      assert t[..|t| - 1] == s;
    } else {
      var k := |part| - 1;
      SplitAppend(s, part[..k]);
      assert t[..|t| - 1] == s + [SEPARATOR] + part[..k];
      assert part == part[..k] + [part[k]];
    }
  }

  lemma {:induction false} SplitFree(part: string)
    requires Free(part)
    ensures Split(part) == [part]
    decreases |part|
  {
    if part != "" {
      var k := |part| - 1;
      SplitFree(part[..k]);
      assert part == part[..k] + [part[k]];
    }
  }

  /** Splitting undoes joining. */
  lemma {:induction false} SplitJoin(parts: seq<string>)
    requires |parts| > 0 && AllFree(parts)
    ensures Split(Join(parts)) == parts
    decreases |parts|
  {
    var k := |parts| - 1;
    if k == 0 {
      SplitFree(parts[0]);
    } else {
      SplitJoin(parts[..k]);
      SplitAppend(Join(parts[..k]), parts[k]);
      assert parts == parts[..k] + [parts[k]];
    }
  }

  lemma JoinTwo(a: string, b: string)
    ensures Join([a]) == a && Join([a, b]) == a + "." + b
  {
    assert [a, b][..1] == [a];
  }

  /** The number a string of decimal digits denotes. */
  function Number(s: string): int {
    if s == "" then 0 else Number(s[..|s| - 1]) * 10 + (s[|s| - 1] as int - '0' as int)
  }

  lemma DigitReads(d: nat)
    requires d < 10
    ensures Digit(d) as int == '0' as int + d
  {
    assert d == 0 || d == 1 || d == 2 || d == 3 || d == 4 || d == 5 || d == 6 || d == 7 || d == 8 || d == 9;
  }

  /** Decimal writes a number in decimal digits without leading zeros. */
  lemma {:induction false} DecimalReads(n: nat)
    ensures Number(Decimal(n)) == n && (forall c :: c in Decimal(n) ==> '0' <= c <= '9')
    ensures n > 0 ==> Decimal(n)[0] != '0'
    decreases n
  {
    var s := Decimal(n);
    DigitReads(n % 10);
    if n < 10 {
      assert s[..0] == "";
      assert Number(s) == Number("") * 10 + (s[0] as int - '0' as int);
    } else {
      DecimalReads(n / 10);
      assert s[..|s| - 1] == Decimal(n / 10);
      assert s[0] == Decimal(n / 10)[0];
    }
  }

  lemma JoinAppend(parts: seq<string>, part: string)
    requires |parts| > 0
    ensures Join(parts + [part]) == Join(parts) + [SEPARATOR] + part
  {
    assert (parts + [part])[..|parts|] == parts;
  }

  lemma JoinInjective(a: seq<string>, b: seq<string>)
    requires |a| > 0 && |b| > 0 && AllFree(a) && AllFree(b) && Join(a) == Join(b)
    ensures a == b
  {
    SplitJoin(a);
    SplitJoin(b);
  }

  lemma {:induction false} JoinNonEmpty(parts: seq<string>)
    requires |parts| > 0 && forall i :: 0 <= i < |parts| ==> parts[i] != ""
    ensures Join(parts) != ""
  {
  }

  function Digit(d: nat): char
    requires d < 10
  {
    ['0', '1', '2', '3', '4', '5', '6', '7', '8', '9'][d]
  }

  /** str of a number. */
  function Decimal(n: nat): (s: string)
    ensures s != "" && Free(s)
    decreases n
  {
    if n < 10 then [Digit(n)] else Decimal(n / 10) + [Digit(n % 10)]
  }

  lemma {:induction false} DecimalInjective(a: nat, b: nat)
    requires Decimal(a) == Decimal(b)
    ensures a == b
    decreases a
  {
    var s := Decimal(a);
    assert s[|s| - 1] == Digit(a % 10) == Digit(b % 10);
    if a >= 10 && b >= 10 {
      assert s[..|s| - 1] == Decimal(a / 10) == Decimal(b / 10);
      DecimalInjective(a / 10, b / 10);
    }
  }
}
