/** Python's ordering of `str` values, the `min` the paginator takes over message ids,
    and how that ordering relates to the decimal value of an id. */
module StringOrder {

  /** `a <= b` on Python strings: code point by code point, a proper prefix first. */
  predicate StrLe(a: string, b: string)
  {
    |a| == 0 || (|b| > 0 && (a[0] < b[0] || (a[0] == b[0] && StrLe(a[1..], b[1..]))))
  }

  /** `a < b` on Python strings. */
  predicate StrLt(a: string, b: string)
  {
    StrLe(a, b) && a != b
  }

  lemma {:induction false} StrLeReflexive(a: string)
    ensures StrLe(a, a)
  {
    if |a| > 0 {
      StrLeReflexive(a[1..]);
    }
  }

  lemma {:induction false} StrLeTotal(a: string, b: string)
    ensures StrLe(a, b) || StrLe(b, a)
  {
    if |a| > 0 && |b| > 0 && a[0] == b[0] {
      StrLeTotal(a[1..], b[1..]);
    }
  }

  lemma {:induction false} StrLeAntisymmetric(a: string, b: string)
    requires StrLe(a, b) && StrLe(b, a)
    ensures a == b
  {
    if |a| > 0 && |b| > 0 {
      StrLeAntisymmetric(a[1..], b[1..]);
      assert a == [a[0]] + a[1..] && b == [b[0]] + b[1..];
    }
  }

  lemma {:induction false} StrLeTransitive(a: string, b: string, c: string)
    requires StrLe(a, b) && StrLe(b, c)
    ensures StrLe(a, c)
  {
    if |a| > 0 && |b| > 0 && |c| > 0 && a[0] == b[0] && b[0] == c[0] {
      StrLeTransitive(a[1..], b[1..], c[1..]);
    }
  }

  /** Extends a lower bound of `rest` to anything below that bound. */
  lemma StrLeBelowAll(a: string, m: string, rest: seq<string>)
    requires StrLe(a, m)
    requires forall x :: x in rest ==> StrLe(m, x)
    ensures forall x :: x in rest ==> StrLe(a, x)
  {
    forall x | x in rest
      ensures StrLe(a, x)
    {
      StrLeTransitive(a, m, x);
    }
  }

  /** Python's `min` over a non-empty list of strings: the first element that no
      later element is strictly below. */
  function MinStr(ids: seq<string>): (m: string)
    requires |ids| > 0
    ensures m in ids
    ensures forall x :: x in ids ==> StrLe(m, x)
  {
    if |ids| == 1 then
      StrLeReflexive(ids[0]);
      ids[0]
    else
      var m := MinStr(ids[1..]);
      assert forall x :: x in ids ==> x == ids[0] || x in ids[1..];
      if StrLt(m, ids[0]) then
        m
      else
        StrLeTotal(m, ids[0]);
        StrLeReflexive(ids[0]);
        StrLeBelowAll(ids[0], m, ids[1..]);
        ids[0]
  }

  /** The least string of a list does not depend on the list's order, so the
      `sorted(ids, key=int)` that comes before `min` changes nothing. */
  lemma MinStrPermutation(a: seq<string>, b: seq<string>)
    requires |a| > 0 && multiset(a) == multiset(b)
    ensures |b| > 0 && MinStr(a) == MinStr(b)
  {
    assert a[0] in multiset(b);
    var ma, mb := MinStr(a), MinStr(b);
    assert ma in multiset(b) && mb in multiset(a);
    StrLeAntisymmetric(ma, mb);
  }

  predicate IsDecimal(s: string)
  {
    forall i :: 0 <= i < |s| ==> '0' <= s[i] <= '9'
  }

  function Pow10(n: nat): nat
  {
    if n == 0 then 1 else 10 * Pow10(n - 1)
  }

  function Digit(c: char): nat
    requires '0' <= c <= '9'
  {
    c as int - '0' as int
  }

  /** `int(s)` for a string of decimal digits. */
  function DecValue(s: string): nat
    requires IsDecimal(s)
  {
    if s == [] then 0 else Digit(s[0]) * Pow10(|s| - 1) + DecValue(s[1..])
  }

  lemma {:induction false} DecValueBound(s: string)
    requires IsDecimal(s)
    ensures DecValue(s) < Pow10(|s|)
  {
    if s != [] {
      DecValueBound(s[1..]);
      var p := Pow10(|s| - 1);
      assert Digit(s[0]) * p <= 9 * p;
    }
  }

  /** A leading digit outweighs everything after it. */
  lemma LeadingDigitDominates(da: nat, db: nat, p: nat, ra: nat, rb: nat)
    requires da < db && ra < p
    ensures da * p + ra < db * p + rb
  {
    assert (da + 1) * p <= db * p;
  }

  /** For digit strings of one width, string order is numeric order. */
  lemma {:induction false} SameWidthOrder(a: string, b: string)
    requires IsDecimal(a) && IsDecimal(b) && |a| == |b|
    ensures StrLe(a, b) <==> DecValue(a) <= DecValue(b)
  {
    if a != [] {
      var p := Pow10(|a| - 1);
      assert DecValue(a) == Digit(a[0]) * p + DecValue(a[1..]);
      assert DecValue(b) == Digit(b[0]) * p + DecValue(b[1..]);
      if a[0] < b[0] {
        DecValueBound(a[1..]);
        LeadingDigitDominates(Digit(a[0]), Digit(b[0]), p, DecValue(a[1..]), DecValue(b[1..]));
      } else if b[0] < a[0] {
        DecValueBound(b[1..]);
        LeadingDigitDominates(Digit(b[0]), Digit(a[0]), p, DecValue(b[1..]), DecValue(a[1..]));
      } else {
        SameWidthOrder(a[1..], b[1..]);
      }
    }
  }

  /** When all ids have the same number of digits, the string minimum is the
      numeric minimum. */
  lemma CursorIsNumericMinimum(ids: seq<string>)
    requires |ids| > 0
    requires forall x :: x in ids ==> IsDecimal(x) && |x| == |ids[0]|
    ensures IsDecimal(MinStr(ids))
    ensures forall x :: x in ids ==> DecValue(MinStr(ids)) <= DecValue(x)
  {
    var m := MinStr(ids);
    forall x | x in ids
      ensures DecValue(m) <= DecValue(x)
    {
      SameWidthOrder(m, x);
    }
  }

  /** With ids of different widths the string minimum can be numerically larger
      than another id of the same list. */
  lemma CursorNotNumericMinimum()
    ensures MinStr(["9", "10"]) == "10"
    ensures IsDecimal("9") && IsDecimal("10") && DecValue("9") < DecValue("10")
  {
    assert StrLt("10", "9");
  }
}
