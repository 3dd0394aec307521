/**
 AddCommas: groups the decimal digits in a buffer by threes, in place and from the right.  The digits are
 those that sprintf left in the buffer; formatting the number is not part of this model.
 */
module DigitGrouping {

  /** What the buffer should read afterwards: a comma before every group of three from the right. */
  function Grouped(digits: string): string {
    if |digits| <= 3 then digits
    else Grouped(digits[..|digits| - 3]) + "," + digits[|digits| - 3..]
  }

  function CommaCount(r: nat): nat {
    if r == 0 then 0 else (r - 1) / 3
  }

  function WithoutCommas(s: string): string {
    if s == "" then ""
    else WithoutCommas(s[..|s| - 1]) + if s[|s| - 1] == ',' then "" else [s[|s| - 1]]
  }

  predicate NoComma(s: string) {
    forall i :: 0 <= i < |s| ==> s[i] != ','
  }

  lemma {:induction false} GroupedLength(digits: string)
    ensures |Grouped(digits)| == |digits| + CommaCount(|digits|)
  {
    if |digits| > 3 { GroupedLength(digits[..|digits| - 3]); }
  }

  lemma {:induction false} WithoutCommasConcat(a: string, b: string)
    ensures WithoutCommas(a + b) == WithoutCommas(a) + WithoutCommas(b)
  {
    if b == "" {
      assert a + b == a;
    } else {
      WithoutCommasConcat(a, b[..|b| - 1]);
      assert (a + b)[..|a + b| - 1] == a + b[..|b| - 1];
    }
  }

  lemma {:induction false} WithoutCommasId(s: string)
    requires NoComma(s)
    ensures WithoutCommas(s) == s
  {
    if s != "" { WithoutCommasId(s[..|s| - 1]); }
  }

  /** Deleting the commas gives back the digits. */
  lemma {:induction false} GroupedKeepsDigits(digits: string)
    requires NoComma(digits)
    ensures WithoutCommas(Grouped(digits)) == digits
  {
    WithoutCommasId(digits);
    if |digits| > 3 {
      var front, last := digits[..|digits| - 3], digits[|digits| - 3..];
      GroupedKeepsDigits(front);
      WithoutCommasId(last);
      WithoutCommasConcat(Grouped(front) + ",", last);
      WithoutCommasConcat(Grouped(front), ",");
      assert WithoutCommas(",") == "" by { assert ","[..0] == ""; }
    }
  }

  /** A comma stands exactly where a multiple of three digits, and their commas, follow. */
  lemma {:induction false} CommaPositions(digits: string, i: nat)
    requires NoComma(digits) && i < |Grouped(digits)|
    ensures Grouped(digits)[i] == ',' <==> (|Grouped(digits)| - i) % 4 == 0
  {
    GroupedLength(digits);
    if |digits| > 3 {
      var front := digits[..|digits| - 3];
      if i < |Grouped(front)| { CommaPositions(front, i); }
    }
  }

  /** The text never starts with a comma, and every comma is followed by 3, 6, 9, ... digits. */
  lemma {:induction false} CommaFollowedByTriples(digits: string, i: nat)
    requires NoComma(digits) && i < |Grouped(digits)| && Grouped(digits)[i] == ','
    ensures 0 < i && |WithoutCommas(Grouped(digits)[i + 1..])| > 0 && |WithoutCommas(Grouped(digits)[i + 1..])| % 3 == 0
  {
    if |digits| > 3 {
      var front, last := digits[..|digits| - 3], digits[|digits| - 3..];
      var g := Grouped(front);
      WithoutCommasId(last);
      if i == |g| {
        assert Grouped(digits)[i + 1..] == last;
        GroupedLength(front);
      } else {
        CommaFollowedByTriples(front, i);
        assert Grouped(digits)[i + 1..] == g[i + 1..] + "," + last;
        WithoutCommasConcat(g[i + 1..] + ",", last);
        WithoutCommasConcat(g[i + 1..], ",");
        assert WithoutCommas(",") == "" by { assert ","[..0] == ""; }
      }
    }
  }

  /** The last n groups of the text are the last n triples of digits. */
  lemma {:induction false} GroupedTail(digits: string, n: nat)
    requires 3 * n < |digits|
    ensures |Grouped(digits)| == |Grouped(digits[..|digits| - 3 * n])| + 4 * n
    ensures Grouped(digits)[..|Grouped(digits)| - 4 * n] == Grouped(digits[..|digits| - 3 * n])
  {
    if n == 0 {
      assert digits[..|digits|] == digits;
    } else {
      var front := digits[..|digits| - 3];
      GroupedTail(front, n - 1);
      assert front[..|front| - 3 * (n - 1)] == digits[..|digits| - 3 * n];
    }
  }

  /** The last group of a long text. */
  lemma LastGroup(digits: string)
    requires 3 < |digits|
    ensures var g, n, m := Grouped(digits), |Grouped(digits)|, |digits|;
            && 4 <= n
            && g[n - 4] == ',' && g[n - 3] == digits[m - 3] && g[n - 2] == digits[m - 2] && g[n - 1] == digits[m - 1]
  {
  }

  /** The i-th group from the right is a comma and the i-th triple of digits from the right. */
  lemma GroupAt(digits: string, i: nat, p: nat, q: nat)
    requires i < CommaCount(|digits|)
    requires p == |digits| + CommaCount(|digits|) - 4 * i && q == |digits| - 3 * i
    ensures 4 <= p <= |Grouped(digits)| && 3 < q <= |digits|
    ensures var g := Grouped(digits);
            g[p - 4] == ',' && g[p - 3] == digits[q - 3] && g[p - 2] == digits[q - 2] && g[p - 1] == digits[q - 1]
  {
    var g := Grouped(digits);
    GroupedLength(digits);
    GroupedTail(digits, i);
    LastGroup(digits[..q]);
    var rest := Grouped(digits[..q]);
    assert g[..p] == rest && |rest| == p;
    assert g[p - 4] == rest[p - 4] && g[p - 3] == rest[p - 3] && g[p - 2] == rest[p - 2] && g[p - 1] == rest[p - 1];
  }

  /** What is left of the first group is at most three digits. */
  lemma FirstGroup(digits: string)
    ensures var q := |digits| - 3 * CommaCount(|digits|);
            0 <= q <= |Grouped(digits)| && forall k :: 0 <= k < q ==> Grouped(digits)[k] == digits[k]
  {
    var n := CommaCount(|digits|);
    GroupedLength(digits);
    if digits != "" {
      GroupedTail(digits, n);
      var q := |digits| - 3 * n;
      assert Grouped(digits)[..q] == digits[..q];
      forall k | 0 <= k < q
        ensures Grouped(digits)[k] == digits[k]
      {
        assert Grouped(digits)[..q][k] == digits[..q][k];
      }
    }
  }

  /** Copies the three digits before q to the place before p, where they may overlap, and adds the comma. */
  method MoveGroup(buf: array<char>, p: nat, q: nat)
    requires 3 <= q < p <= buf.Length
    modifies buf
    ensures forall k :: 0 <= k < p - 4 || p <= k < buf.Length ==> buf[k] == old(buf[k])
    ensures buf[p - 4] == ',' && buf[p - 3] == old(buf[q - 3]) && buf[p - 2] == old(buf[q - 2]) && buf[p - 1] == old(buf[q - 1])
  {
    buf[p - 1] := buf[q - 1];
    buf[p - 2] := buf[q - 2];
    buf[p - 3] := buf[q - 3];
    buf[p - 4] := ',';
  }

  /** After one move the group stands in its place, the groups behind it stay, and so do the digits before it. */
  lemma GroupPlaced(before: string, after: string, digits: string, text: string, p: nat, q: nat, length: nat)
    requires |before| == |after| && 3 <= q < p <= length < |before| && q <= |digits| && length <= |text|
    requires forall k :: 0 <= k < q ==> before[k] == digits[k]
    requires forall k :: p <= k < length ==> before[k] == text[k]
    requires forall k :: 0 <= k < p - 4 || p <= k < |after| ==> after[k] == before[k]
    requires after[p - 4] == ',' == text[p - 4] && after[p - 3] == before[q - 3] && after[p - 2] == before[q - 2]
    requires after[p - 1] == before[q - 1] && text[p - 3] == digits[q - 3] && text[p - 2] == digits[q - 2]
    requires text[p - 1] == digits[q - 1]
    ensures forall k :: p - 4 <= k < length ==> after[k] == text[k]
    ensures after[..q - 3] == digits[..q - 3] && after[length..] == before[length..]
  {
    forall k | p - 4 <= k < length
      ensures after[k] == text[k]
    {
      if k >= p { assert after[k] == before[k]; }
    }
  }

  /**
   Moves the digits to the right, three at a time, and puts a comma in front of each group.  A digit is
   overwritten only after it has been moved itself.
   */
  method AddCommas(buf: array<char>, r: nat) returns (length: nat)
    requires r + CommaCount(r) < buf.Length
    modifies buf
    ensures length == r + CommaCount(r)
    ensures buf[..length] == Grouped(old(buf[..r])) && buf[length] == '\0'
    ensures buf[length + 1..] == old(buf[length + 1..])
  {
    ghost var digits := buf[..r];
    ghost var text := Grouped(digits);
    GroupedLength(digits);
    var commaCount := if r == 0 then 0 else (r - 1) / 3;
    length := r + commaCount;
    for i := 0 to commaCount
      invariant buf[..r - 3 * i] == digits[..r - 3 * i]
      invariant forall k :: length - 4 * i <= k < length ==> buf[k] == text[k]
      invariant buf[length..] == old(buf[length..])
    {
      var p := length - 4 * i;
      var q := r - 3 * i;
      GroupAt(digits, i, p, q);
      ghost var before := buf[..];
      assert forall k :: 0 <= k < q ==> buf[k] == digits[k] by {
        forall k | 0 <= k < q ensures buf[k] == digits[k] { assert buf[..q][k] == digits[..q][k]; }
      }
      MoveGroup(buf, p, q);
      GroupPlaced(before, buf[..], digits, text, p, q, length);
    }
    FirstGroup(digits);
    forall k | 0 <= k < length
      ensures buf[k] == text[k]
    {
      if k < r - 3 * commaCount { assert buf[..r - 3 * commaCount][k] == digits[..r - 3 * commaCount][k]; }
    }
    assert buf[..length] == text;
    buf[length] := '\0';
  }
}
