/** Decimal rendering of numbers and separator joins, as used by the prompt templates. */
module Text {

  predicate IsDigit(c: char) { '0' <= c <= '9' }

  predicate AllDigits(s: string) { forall i :: 0 <= i < |s| ==> IsDigit(s[i]) }

  function DigitChar(d: nat): (c: char)
    requires d < 10
    ensures IsDigit(c) && DigitValue(c) == d
  {
    (48 + d) as char
  }

  function DigitValue(c: char): nat
    requires IsDigit(c)
  {
    c as int - 48
  }

  /** `str(n)` of a non-negative Python int: decimal digits, no leading zero. */
  function NatToString(n: nat): (s: string)
    ensures |s| > 0 && AllDigits(s)
    ensures s[0] == '0' ==> n == 0
    decreases n
  {
    if n < 10 then [DigitChar(n)] else NatToString(n / 10) + [DigitChar(n % 10)]
  }

  /** Reads a string of decimal digits back as a number. */
  function ParseNat(s: string): nat
    requires AllDigits(s)
    decreases |s|
  {
    if s == [] then 0 else 10 * ParseNat(s[..|s| - 1]) + DigitValue(s[|s| - 1])
  }

  /** Rendering a number and reading it back gives the number. */
  lemma {:induction false} ParseNatToString(n: nat)
    ensures ParseNat(NatToString(n)) == n
    decreases n
  {
    var s := NatToString(n);
    if n >= 10 {
      ParseNatToString(n / 10);
      assert s[..|s| - 1] == NatToString(n / 10);
    }
  }

  /** Distinct numbers get distinct renderings, so source labels never collide. */
  lemma NatToStringInjective(m: nat, n: nat)
    ensures NatToString(m) == NatToString(n) ==> m == n
  {
    ParseNatToString(m);
    ParseNatToString(n);
  }

  /** Python's `sep.join(parts)`. */
  function Join(sep: string, parts: seq<string>): string
    decreases |parts|
  {
    if |parts| == 0 then ""
    else if |parts| == 1 then parts[0]
    else parts[0] + sep + Join(sep, parts[1..])
  }

  /** Where `parts[i]` starts inside `Join(sep, parts)`. */
  function Offset(sep: string, parts: seq<string>, i: nat): nat
    requires i <= |parts|
    decreases i
  {
    if i == 0 then 0 else |parts[0]| + |sep| + Offset(sep, parts[1..], i - 1)
  }

  /** Consecutive offsets differ by the length of a part and one separator. */
  lemma {:induction false} OffsetStep(sep: string, parts: seq<string>, i: nat)
    requires i < |parts|
    ensures Offset(sep, parts, i + 1) == Offset(sep, parts, i) + |parts[i]| + |sep|
    decreases i
  {
    if i > 0 {
      OffsetStep(sep, parts[1..], i - 1);
    }
  }

  lemma SliceOfConcat(a: string, b: string, lo: nat, hi: nat)
    requires |a| <= lo <= hi <= |a| + |b|
    ensures (a + b)[lo..hi] == b[lo - |a|..hi - |a|]
  {
  }

  lemma PrefixOfConcat(a: string, b: string)
    ensures (a + b)[0..|a|] == a
  {
  }

  /** Joining two or more parts puts the first part, then a separator, then the join of
      the rest. */
  lemma JoinCons(sep: string, parts: seq<string>)
    requires |parts| > 1
    ensures Join(sep, parts) == (parts[0] + sep) + Join(sep, parts[1..])
    ensures Join(sep, parts) == parts[0] + (sep + Join(sep, parts[1..]))
  {
  }

  /** The last part of `Join(sep, parts)` ends where the joined string ends. */
  lemma {:induction false} JoinLength(sep: string, parts: seq<string>)
    requires |parts| > 0
    ensures Offset(sep, parts, |parts| - 1) + |parts[|parts| - 1]| == |Join(sep, parts)|
    decreases |parts|
  {
    if |parts| > 1 {
      JoinLength(sep, parts[1..]);
    }
  }

  /** `Join(sep, parts)` holds `parts[i]` at its offset. */
  lemma {:induction false} JoinPartAt(sep: string, parts: seq<string>, i: nat)
    requires i < |parts|
    ensures Offset(sep, parts, i) + |parts[i]| <= |Join(sep, parts)|
    ensures Join(sep, parts)[Offset(sep, parts, i)..Offset(sep, parts, i) + |parts[i]|] == parts[i]
    decreases i
  {
    if |parts| == 1 {
      assert Join(sep, parts) == parts[0];
    } else if i == 0 {
      JoinCons(sep, parts);
      PrefixOfConcat(parts[0], sep + Join(sep, parts[1..]));
    } else {
      var head := parts[0] + sep;
      var rest := Join(sep, parts[1..]);
      JoinCons(sep, parts);
      JoinPartAt(sep, parts[1..], i - 1);
      var o := Offset(sep, parts[1..], i - 1);
      assert Offset(sep, parts, i) == |head| + o;
      assert parts[1..][i - 1] == parts[i];
      calc {
        Join(sep, parts)[|head| + o..|head| + o + |parts[i]|];
        (head + rest)[|head| + o..|head| + o + |parts[i]|];
        { SliceOfConcat(head, rest, |head| + o, |head| + o + |parts[i]|); }
        rest[o..o + |parts[i]|];
        parts[i];
      }
    }
  }

  /** In `Join(sep, parts)` the separator sits between `parts[i]` and `parts[i + 1]`. */
  lemma {:induction false} JoinSeparatorAt(sep: string, parts: seq<string>, i: nat)
    requires i + 1 < |parts|
    ensures Offset(sep, parts, i + 1) == Offset(sep, parts, i) + |parts[i]| + |sep|
    ensures Offset(sep, parts, i + 1) <= |Join(sep, parts)|
    ensures Join(sep, parts)[Offset(sep, parts, i) + |parts[i]|..Offset(sep, parts, i + 1)] == sep
    decreases i
  {
    OffsetStep(sep, parts, i);
    JoinPartAt(sep, parts, i + 1);
    var head := parts[0] + sep;
    var rest := Join(sep, parts[1..]);
    assert Join(sep, parts) == head + rest;
    if i > 0 {
      JoinSeparatorAt(sep, parts[1..], i - 1);
      var o := Offset(sep, parts[1..], i - 1);
      var o' := Offset(sep, parts[1..], i);
      assert parts[1..][i - 1] == parts[i];
      SliceOfConcat(head, rest, |head| + o + |parts[i]|, |head| + o');
    }
  }
}
