/** formatNaira: comma grouping of a kobo amount for e-mail texts. */
module Naira {
  import opened Keys

  /** %d of a possibly negative integer. */
  function DecimalInt(n: int): string { if n < 0 then "-" + Decimal(-n) else Decimal(n) }

  /** Go's integer division truncates toward zero. */
  function TruncDiv(a: int, b: int): int
    requires b > 0
  {
    if a < 0 then -((-a) / b) else a / b
  }

  function Join(parts: seq<string>): string {
    if |parts| == 0 then ""
    else if |parts| == 1 then parts[0]
    else parts[0] + "," + Join(parts[1..])
  }

  function Concat(parts: seq<string>): string {
    if |parts| == 0 then "" else parts[0] + Concat(parts[1..])
  }

  function WithoutCommas(s: string): string {
    if s == "" then ""
    else (if s[0] == ',' then "" else [s[0]]) + WithoutCommas(s[1..])
  }

  /** Groups of exactly three characters after a first group of one to three. */
  predicate Grouped(parts: seq<string>) {
    && |parts| > 0 && 1 <= |parts[0]| <= 3
    && forall i :: 0 < i < |parts| ==> |parts[i]| == 3
  }

  /** The grouping loop, for every amount: the text after the naira sign is the
      digits in order, cut into groups of three from the right. */
  method FormatNaira(kobo: int) returns (text: string, ghost groups: seq<string>)
    ensures text == "₦" + Join(groups)
    ensures Grouped(groups) && Concat(groups) == DecimalInt(TruncDiv(kobo, 100))
    ensures kobo >= 0 ==> AllDigits(WithoutCommas(text[1..])) && ParseDecimal(WithoutCommas(text[1..])) == kobo / 100
  {
    var naira := TruncDiv(kobo, 100);
    var s := DecimalInt(naira);
    var n := |s|;
    if n <= 3 {
      groups := [s];
      assert Concat(groups) == s + Concat([]);
      text := "₦" + s;
      assert text[1..] == Join(groups);
      if kobo >= 0 { FormatRoundTrip(kobo, groups); }
      return;
    }
    var parts: seq<string> := [];
    while n > 3
      invariant n == |s| > 0
      invariant s + Concat(parts) == DecimalInt(naira)
      invariant forall i :: 0 <= i < |parts| ==> |parts[i]| == 3
    {
      var before := parts;
      parts := [s[n - 3..]] + parts;
      assert parts[1..] == before;
      assert s == s[..n - 3] + s[n - 3..];
      assert s + Concat(before) == s[..n - 3] + (s[n - 3..] + Concat(before));
      s := s[..n - 3];
      n := |s|;
    }
    var tail := parts;
    parts := [s] + parts;
    assert parts[1..] == tail;
    groups := parts;
    text := "₦" + Join(parts);
    assert text[1..] == Join(groups);
    if kobo >= 0 { FormatRoundTrip(kobo, groups); }
  }

  predicate NoComma(s: string) { forall i :: 0 <= i < |s| ==> s[i] != ',' }

  lemma {:induction false} WithoutCommasOfSum(a: string, b: string)
    ensures WithoutCommas(a + b) == WithoutCommas(a) + WithoutCommas(b)
  {
    if a == "" {
      assert a + b == b;
    } else {
      var kept := if a[0] == ',' then "" else [a[0]];
      WithoutCommasOfSum(a[1..], b);
      assert (a + b)[1..] == a[1..] + b;
      assert WithoutCommas(a + b) == kept + (WithoutCommas(a[1..]) + WithoutCommas(b));
    }
  }

  lemma {:induction false} NothingToRemove(s: string)
    requires NoComma(s)
    ensures WithoutCommas(s) == s
  {
    if s != "" { NothingToRemove(s[1..]); }
  }

  /** Removing the commas undoes the grouping. */
  lemma {:induction false} WithoutCommasOfJoin(parts: seq<string>)
    requires forall i :: 0 <= i < |parts| ==> NoComma(parts[i])
    ensures WithoutCommas(Join(parts)) == Concat(parts)
  {
    if |parts| == 1 {
      NothingToRemove(parts[0]);
      assert Concat(parts[1..]) == "";
    } else if |parts| > 1 {
      WithoutCommasOfJoin(parts[1..]);
      NothingToRemove(parts[0]);
      WithoutCommasOfSum(parts[0] + ",", Join(parts[1..]));
      WithoutCommasOfSum(parts[0], ",");
      assert WithoutCommas(",") == "" + WithoutCommas("");
    }
  }

  lemma {:induction false} PiecesOf(parts: seq<string>, s: string)
    requires Concat(parts) == s && NoComma(s)
    ensures forall i :: 0 <= i < |parts| ==> NoComma(parts[i])
  {
    if |parts| > 0 {
      var rest := Concat(parts[1..]);
      assert s[..|parts[0]|] == parts[0] && s[|parts[0]|..] == rest;
      PiecesOf(parts[1..], rest);
      forall i | 0 <= i < |parts|
        ensures NoComma(parts[i])
      {
        if i == 0 {
          assert forall k :: 0 <= k < |parts[0]| ==> parts[0][k] == s[k];
        } else {
          assert parts[i] == parts[1..][i - 1];
        }
      }
    }
  }

  /** Round trip for every non-negative amount: any grouping of its digits, with
      the commas taken out, reads back as the whole naira. */
  lemma FormatRoundTrip(kobo: int, groups: seq<string>)
    requires kobo >= 0 && Grouped(groups) && Concat(groups) == DecimalInt(TruncDiv(kobo, 100))
    ensures AllDigits(WithoutCommas(Join(groups)))
    ensures ParseDecimal(WithoutCommas(Join(groups))) == kobo / 100
  {
    PiecesOf(groups, Decimal(kobo / 100));
    WithoutCommasOfJoin(groups);
    ParseOfDecimal(kobo / 100);
  }

  lemma {:induction false} ConcatLength(parts: seq<string>)
    requires forall i :: 0 <= i < |parts| ==> |parts[i]| == 3
    ensures |Concat(parts)| == 3 * |parts|
  {
    if |parts| > 0 { ConcatLength(parts[1..]); }
  }

  /** A negative amount of at least one naira starts with "-," exactly when its
      digits fill whole groups: formatNaira counts the sign as a digit. */
  lemma NegativeSignAlone(kobo: int, groups: seq<string>)
    requires kobo <= -100 && Grouped(groups) && Concat(groups) == DecimalInt(TruncDiv(kobo, 100))
    ensures groups[0] == "-" <==> |Decimal((-kobo) / 100)| % 3 == 0
  {
    var s := DecimalInt(TruncDiv(kobo, 100));
    ConcatLength(groups[1..]);
    assert s[..|groups[0]|] == groups[0];
    assert s == "-" + Decimal((-kobo) / 100);
    assert groups[0][0] == '-';
    assert |groups[0]| + 3 * (|groups| - 1) == 1 + |Decimal((-kobo) / 100)|;
    if |groups[0]| == 1 { assert groups[0] == "-"; }
  }
}
