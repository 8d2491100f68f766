/**
 * The few Python string built-ins the bot relies on, written out:
 * `str(n)` for integers, `int(s)` for decimal text, `s.strip(c)` and
 * `s.lstrip(c)`, `s.split(c)[1]`, and how an f-string renders a value that
 * may be `None`.
 */
module Text {
  import opened Wrappers

  predicate IsDigit(c: char) {
    '0' <= c <= '9'
  }

  predicate AllDigits(s: string) {
    forall i :: 0 <= i < |s| ==> IsDigit(s[i])
  }

  function DigitChar(d: nat): (c: char)
    requires d < 10
    ensures IsDigit(c)
  {
    (('0' as int) + d) as char
  }

  function DigitValue(c: char): (d: nat)
    requires IsDigit(c)
    ensures d < 10
  {
    (c as int) - ('0' as int)
  }

  /** Decimal digits of a natural number, most significant first, without leading zeros. */
  function NatToString(n: nat): (s: string)
    ensures |s| >= 1 && AllDigits(s)
    ensures |s| > 1 ==> s[0] != '0'
  {
    if n < 10 then [DigitChar(n)] else NatToString(n / 10) + [DigitChar(n % 10)]
  }

  /** Python's `str(n)` (and `f"{n}"`) for an integer. */
  function IntToString(n: int): (s: string)
    ensures n >= 0 ==> AllDigits(s)
    ensures n < 0 ==> |s| >= 2 && s[0] == '-' && AllDigits(s[1..])
  {
    if n < 0 then "-" + NatToString(-n) else NatToString(n)
  }

  /** The value of a non-empty run of decimal digits. */
  function ParseDigits(s: string): nat
    requires |s| >= 1 && AllDigits(s)
  {
    if |s| == 1 then DigitValue(s[0])
    else ParseDigits(s[..|s| - 1]) * 10 + DigitValue(s[|s| - 1])
  }

  /**
   * Python's `int(s)` on decimal text: an optional sign followed by at least
   * one digit. `None` stands for the `ValueError` Python raises otherwise.
   */
  function ParseInt(s: string): Option<int> {
    var signed := |s| > 0 && (s[0] == '-' || s[0] == '+');
    var digits := if signed then s[1..] else s;
    if |digits| == 0 || !AllDigits(digits) then None
    else if signed && s[0] == '-' then Some(0 - ParseDigits(digits))
    else Some(ParseDigits(digits))
  }

  lemma {:induction false} ParseDigitsOfNatToString(n: nat)
    ensures ParseDigits(NatToString(n)) == n
  {
    if n >= 10 {
      var s := NatToString(n);
      assert s[..|s| - 1] == NatToString(n / 10);
      ParseDigitsOfNatToString(n / 10);
    }
  }

  /** Reading back what `str(n)` wrote gives `n` again, for every integer. */
  lemma ParseIntRoundTrip(n: int)
    ensures ParseInt(IntToString(n)) == Some(n)
  {
    if n < 0 {
      assert IntToString(n)[1..] == NatToString(-n);
      ParseDigitsOfNatToString(-n);
    } else {
      ParseDigitsOfNatToString(n);
    }
  }

  /** Python's `s.lstrip(c)`: drops every leading `c`. */
  function LStrip(s: string, c: char): (r: string)
    ensures |r| <= |s| && r == s[|s| - |r|..]
    ensures forall i :: 0 <= i < |s| - |r| ==> s[i] == c
    ensures r == [] || r[0] != c
  {
    if |s| > 0 && s[0] == c then LStrip(s[1..], c) else s
  }

  /** Python's `s.rstrip(c)`: drops every trailing `c`. */
  function RStrip(s: string, c: char): (r: string)
    ensures |r| <= |s| && r == s[..|r|]
    ensures forall i :: |r| <= i < |s| ==> s[i] == c
    ensures r == [] || r[|r| - 1] != c
  {
    if |s| > 0 && s[|s| - 1] == c then RStrip(s[..|s| - 1], c) else s
  }

  /** Python's `s.strip(c)`: drops every leading and every trailing `c`. */
  function Strip(s: string, c: char): (r: string)
    ensures exists i, j :: StrippedFrom(s, c, i, j) && r == s[i..j]
    ensures r == [] || (r[0] != c && r[|r| - 1] != c)
  {
    var left := LStrip(s, c);
    var r := RStrip(left, c);
    PrefixOfSuffix(s, left, r, c);
    assert StrippedFrom(s, c, |s| - |left|, |s| - |left| + |r|);
    r
  }

  /** A prefix `r` of a suffix `left` of `s`, followed in `left` only by `c`, is the slice of `s` followed only by `c`. */
  lemma PrefixOfSuffix(s: string, left: string, r: string, c: char)
    requires |left| <= |s| && left == s[|s| - |left|..]
    requires |r| <= |left| && r == left[..|r|]
    requires forall k :: |r| <= k < |left| ==> left[k] == c
    ensures var i := |s| - |left|; r == s[i..i + |r|] && forall k :: i + |r| <= k < |s| ==> s[k] == c
  {
    var i := |s| - |left|;
    forall k | 0 <= k < |r| ensures r[k] == s[i + k] {
      assert r[k] == left[k];
    }
    forall k | i + |r| <= k < |s| ensures s[k] == c {
      assert s[k] == left[k - i];
    }
  }

  /** `s[i..j]` is what is left of `s` once the runs of `c` before `i` and from `j` on are cut away. */
  predicate StrippedFrom(s: string, c: char, i: int, j: int) {
    && 0 <= i <= j <= |s|
    && (forall k :: 0 <= k < i ==> s[k] == c)
    && (forall k :: j <= k < |s| ==> s[k] == c)
  }

  /** `k` copies of `c`. */
  function Repeat(c: char, k: nat): (r: string)
    ensures |r| == k && forall i :: 0 <= i < k ==> r[i] == c
  {
    if k == 0 then [] else [c] + Repeat(c, k - 1)
  }

  /** Leading copies of `c` never change what `lstrip(c)` returns. */
  lemma {:induction false} LStripIgnoresLeading(k: nat, s: string, c: char)
    ensures LStrip(Repeat(c, k) + s, c) == LStrip(s, c)
  {
    var t := Repeat(c, k) + s;
    if k > 0 {
      assert t[0] == c;
      assert t[1..] == Repeat(c, k - 1) + s;
      LStripIgnoresLeading(k - 1, s, c);
    } else {
      assert t == s;
    }
  }

  /** Position of the first `c` in `s`, or `|s|` when there is none. */
  function IndexOf(s: string, c: char): (i: nat)
    ensures i <= |s|
    ensures i < |s| ==> s[i] == c
    ensures forall j :: 0 <= j < i ==> s[j] != c
  {
    if |s| == 0 then 0 else if s[0] == c then 0 else 1 + IndexOf(s[1..], c)
  }

  /** Python's `s.split(c)[1]`, which needs at least one `c` in `s`. */
  function SecondField(s: string, c: char): string
    requires c in s
  {
    var rest := s[IndexOf(s, c) + 1..];
    rest[..IndexOf(rest, c)]
  }

  /** `split(c)[1]` recovers the field written between the first `c` and the end. */
  lemma SecondFieldOfJoin(head: string, c: char, field: string)
    requires c !in head && c !in field
    ensures c in head + [c] + field
    ensures SecondField(head + [c] + field, c) == field
  {
    var s := head + [c] + field;
    assert s[|head|] == c;
    assert IndexOf(s, c) == |head|;
    assert s[|head| + 1..] == field;
  }

  predicate StartsWith(s: string, prefix: string) {
    |prefix| <= |s| && s[..|prefix|] == prefix
  }

  predicate EndsWith(s: string, suffix: string) {
    |suffix| <= |s| && s[|s| - |suffix|..] == suffix
  }

  ghost predicate Contains(s: string, part: string) {
    exists i :: OccursAt(s, part, i)
  }

  predicate OccursAt(s: string, part: string, i: int) {
    0 <= i <= |s| - |part| && s[i..i + |part|] == part
  }

  /** A part of the end of a text is a part of the whole text. */
  lemma ContainsInSuffix(prefix: string, s: string, part: string)
    requires Contains(s, part)
    ensures Contains(prefix + s, part)
  {
    var i :| OccursAt(s, part, i);
    assert (prefix + s)[|prefix| + i..|prefix| + i + |part|] == s[i..i + |part|];
    assert OccursAt(prefix + s, part, |prefix| + i);
  }

  /** The pieces of a message joined in order. */
  function Concat(pieces: seq<string>): string
    decreases |pieces|
  {
    if pieces == [] then [] else pieces[0] + Concat(pieces[1..])
  }

  /** Every piece of a joined message occurs in it. */
  lemma {:induction false} ConcatContainsPiece(pieces: seq<string>, k: nat)
    requires k < |pieces|
    ensures Contains(Concat(pieces), pieces[k])
    decreases |pieces|
  {
    var whole := Concat(pieces);
    if k == 0 {
      assert OccursAt(whole, pieces[0], 0);
    } else {
      ConcatContainsPiece(pieces[1..], k - 1);
      var i :| OccursAt(Concat(pieces[1..]), pieces[k], i);
      assert whole[|pieces[0]| + i..|pieces[0]| + i + |pieces[k]|] == Concat(pieces[1..])[i..i + |pieces[k]|];
      assert OccursAt(whole, pieces[k], |pieces[0]| + i);
    }
  }

  /** Joining two lists of pieces joins their messages. */
  lemma {:induction false} ConcatJoin(a: seq<string>, b: seq<string>)
    ensures Concat(a + b) == Concat(a) + Concat(b)
    decreases |a|
  {
    if a == [] {
      assert a + b == b;
    } else {
      assert (a + b)[0] == a[0] && (a + b)[1..] == a[1..] + b;
      ConcatJoin(a[1..], b);
    }
  }

  /** Consecutive pieces of a joined message occur in it joined together. */
  lemma {:induction false} ConcatContainsRun(pieces: seq<string>, i: nat, j: nat)
    requires i <= j <= |pieces|
    ensures Contains(Concat(pieces), Concat(pieces[i..j]))
    decreases i
  {
    if i == 0 {
      var head, rest := pieces[..j], pieces[j..];
      assert head + rest == pieces;
      ConcatJoin(head, rest);
      assert pieces[i..j] == head;
      assert Concat(pieces)[..|Concat(head)|] == Concat(head);
      assert OccursAt(Concat(pieces), Concat(head), 0);
    } else {
      ConcatContainsRun(pieces[1..], i - 1, j - 1);
      assert pieces[1..][i - 1..j - 1] == pieces[i..j];
      ContainsInSuffix(pieces[0], Concat(pieces[1..]), Concat(pieces[i..j]));
    }
  }

  /** Three pieces joined are their concatenation. */
  lemma ConcatThree(a: string, b: string, c: string)
    ensures Concat([a, b, c]) == a + b + c
  {
    assert [a, b, c][1..] == [b, c] && [b, c][1..] == [c] && [c][1..] == [];
    assert Concat([c]) == c + [] == c;
    assert Concat([b, c]) == b + c;
  }

  /** A joined message ends with its last piece. */
  lemma {:induction false} ConcatEndsWithLast(pieces: seq<string>)
    requires pieces != []
    ensures EndsWith(Concat(pieces), pieces[|pieces| - 1])
    decreases |pieces|
  {
    if |pieces| > 1 {
      ConcatEndsWithLast(pieces[1..]);
    } else {
      assert Concat(pieces) == pieces[0] + [];
    }
  }

  /** Joining one more piece appends it at the end. */
  lemma {:induction false} ConcatAppend(pieces: seq<string>, last: string)
    ensures Concat(pieces + [last]) == Concat(pieces) + last
    decreases |pieces|
  {
    if pieces == [] {
      assert [] + [last] == [last];
      assert Concat([last]) == last + Concat([]);
    } else {
      assert (pieces + [last])[1..] == pieces[1..] + [last];
      ConcatAppend(pieces[1..], last);
    }
  }

  /** Number of occurrences of `c` in `s`. */
  function CountChar(s: string, c: char): nat {
    if s == [] then 0 else (if s[0] == c then 1 else 0) + CountChar(s[1..], c)
  }

  lemma {:induction false} CountCharAppend(a: string, b: string, c: char)
    ensures CountChar(a + b, c) == CountChar(a, c) + CountChar(b, c)
  {
    if a != [] {
      var ab := a + b;
      assert ab != [] && ab[0] == a[0] && ab[1..] == a[1..] + b;
      CountCharAppend(a[1..], b, c);
      assert CountChar(ab, c) == (if a[0] == c then 1 else 0) + CountChar(a[1..] + b, c);
    } else {
      assert a + b == b;
    }
  }

  /** How an f-string renders an optional text: `None` prints as the word None. */
  function ShowText(o: Option<string>): string {
    match o
    case None => "None"
    case Some(s) => s
  }

  /** How an f-string renders an optional integer. */
  function ShowInt(o: Option<int>): string {
    match o
    case None => "None"
    case Some(n) => IntToString(n)
  }
}
