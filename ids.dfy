/** The `ids` query parameter of the work item request: the ids written as
    Python's `str` writes an int, joined with commas (client.py:343). Reading
    the parameter back (splitting at the commas as `str.split(",")` does and
    reading each piece as a decimal) recovers the ids, so the request names
    exactly the work items asked for, in the order asked. */
module Ids {
  import opened Py

  predicate IsDigit(c: char)
  {
    '0' <= c <= '9'
  }

  function DigitChar(d: nat): (c: char)
    requires d < 10
    ensures IsDigit(c)
  {
    (48 + d) as char
  }

  function DigitValue(c: char): (d: nat)
    requires IsDigit(c)
    ensures d < 10 && DigitChar(d) == c
  {
    c as int - 48
  }

  /** `str(n)` for `n >= 0`: the decimal digits, most significant first. */
  function NatToDecimal(n: nat): (s: string)
    ensures s != [] && forall i :: 0 <= i < |s| ==> IsDigit(s[i])
  {
    if n < 10 then [DigitChar(n)] else NatToDecimal(n / 10) + [DigitChar(n % 10)]
  }

  /** `str(i)`: a minus sign before the digits of a negative number. */
  function IntToDecimal(i: int): (s: string)
    ensures s != [] && ',' !in s
  {
    if i < 0 then "-" + NatToDecimal(-i) else NatToDecimal(i)
  }

  /** `','.join(str(id) for id in ids)`. */
  function JoinIds(ids: seq<int>): (s: string)
    ensures s == [] <==> ids == []
  {
    if ids == [] then ""
    else if |ids| == 1 then IntToDecimal(ids[0])
    else IntToDecimal(ids[0]) + "," + JoinIds(ids[1..])
  }

  /** `s.split(",")`: the pieces between the commas; a string without a comma,
      the empty string included, is one piece. */
  function Split(s: string): (pieces: seq<string>)
    ensures pieces != []
  {
    if s == [] then [""]
    else
      var rest := Split(s[1..]);
      if s[0] == ',' then [""] + rest else [[s[0]] + rest[0]] + rest[1..]
  }

  /** The value of a string of decimal digits. */
  function ParseNat(s: string): Option<nat>
  {
    if s == [] || !IsDigit(s[|s| - 1]) then None
    else if |s| == 1 then Some(DigitValue(s[0]))
    else
      match ParseNat(s[..|s| - 1])
      case None => None
      case Some(v) => Some(10 * v + DigitValue(s[|s| - 1]))
  }

  /** The value of a decimal, with an optional leading minus sign. */
  function ParseInt(s: string): Option<int>
  {
    if s != [] && s[0] == '-' then
      match ParseNat(s[1..])
      case None => None
      case Some(v) => Some(-(v as int))
    else
      match ParseNat(s)
      case None => None
      case Some(v) => Some(v)
  }

  function ParseAll(pieces: seq<string>): Option<seq<int>>
  {
    if pieces == [] then Some([])
    else
      match (ParseInt(pieces[0]), ParseAll(pieces[1..]))
      case (Some(i), Some(rest)) => Some([i] + rest)
      case _ => None
  }

  /** The ids a query parameter names; the empty parameter names none. */
  function ParseIds(s: string): Option<seq<int>>
  {
    if s == [] then Some([]) else ParseAll(Split(s))
  }

  lemma {:induction false} ParseNatDecimal(n: nat)
    ensures ParseNat(NatToDecimal(n)) == Some(n)
  {
    if n >= 10 {
      var s := NatToDecimal(n);
      var init := NatToDecimal(n / 10);
      assert s[..|s| - 1] == init;
      ParseNatDecimal(n / 10);
      assert DigitValue(s[|s| - 1]) == n % 10 by {
        assert s[|s| - 1] == DigitChar(n % 10);
      }
    }
  }

  lemma ParseIntDecimal(i: int)
    ensures ParseInt(IntToDecimal(i)) == Some(i)
  {
    if i < 0 {
      assert IntToDecimal(i)[1..] == NatToDecimal(-i);
      ParseNatDecimal(-i);
    } else {
      assert IsDigit(NatToDecimal(i)[0]);
      ParseNatDecimal(i);
    }
  }

  /** A piece without a comma runs on into the first piece of what follows. */
  lemma {:induction false} SplitCommaFree(p: string, t: string)
    requires ',' !in p
    ensures Split(p + t) == [p + Split(t)[0]] + Split(t)[1..]
  {
    if p != [] {
      assert (p + t)[1..] == p[1..] + t;
      SplitCommaFree(p[1..], t);
      assert [p[0]] + (p[1..] + Split(t)[0]) == p + Split(t)[0];
    } else {
      assert p + t == t && p + Split(t)[0] == Split(t)[0];
      assert Split(t) == [Split(t)[0]] + Split(t)[1..];
    }
  }

  lemma SplitAtComma(t: string)
    ensures Split("," + t) == [""] + Split(t)
  {
    assert ("," + t)[1..] == t;
  }

  /** Splitting the joined ids gives back one decimal per id. */
  lemma {:induction false} SplitJoinIds(ids: seq<int>)
    requires ids != []
    ensures Split(JoinIds(ids)) == seq(|ids|, k requires 0 <= k < |ids| => IntToDecimal(ids[k]))
  {
    var d := IntToDecimal(ids[0]);
    if |ids| == 1 {
      SplitCommaFree(d, "");
      assert d + "" == d;
      assert Split(d) == [d];
    } else {
      var tail := JoinIds(ids[1..]);
      assert JoinIds(ids) == d + ("," + tail);
      SplitCommaFree(d, "," + tail);
      SplitAtComma(tail);
      var rest := Split("," + tail);
      assert rest[0] == "" && rest[1..] == Split(tail);
      assert Split(JoinIds(ids)) == [d] + Split(tail) by {
        assert d + rest[0] == d;
      }
      SplitJoinIds(ids[1..]);
      var pieces := seq(|ids|, k requires 0 <= k < |ids| => IntToDecimal(ids[k]));
      assert pieces == [d] + seq(|ids[1..]|, k requires 0 <= k < |ids[1..]| => IntToDecimal(ids[1..][k]));
    }
  }

  lemma {:induction false} ParseAllDecimals(ids: seq<int>)
    ensures ParseAll(seq(|ids|, k requires 0 <= k < |ids| => IntToDecimal(ids[k]))) == Some(ids)
  {
    var pieces := seq(|ids|, k requires 0 <= k < |ids| => IntToDecimal(ids[k]));
    if ids != [] {
      ParseIntDecimal(ids[0]);
      assert pieces[1..] == seq(|ids[1..]|, k requires 0 <= k < |ids[1..]| => IntToDecimal(ids[1..][k]));
      ParseAllDecimals(ids[1..]);
      assert [ids[0]] + ids[1..] == ids;
    }
  }

  /** Reading the parameter back gives exactly the ids, in order. */
  lemma JoinIdsRoundTrip(ids: seq<int>)
    ensures ParseIds(JoinIds(ids)) == Some(ids)
  {
    if ids != [] {
      SplitJoinIds(ids);
      ParseAllDecimals(ids);
    }
  }

  /** The single id of the fixture answer is written as itself. */
  lemma JoinOneId()
    ensures JoinIds([1]) == "1"
  {
  }
}
