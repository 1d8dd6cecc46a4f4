/**
 Text facts the runtime relies on. Identifiers are compared as strings, so the order that breaks ties between
 workers, partitions and units has to be total and transitive. Stable ids and unit keys are built by printing
 integers in decimal, so printing has to be injective, and joined keys have to split in one way only wherever the
 separator does not occur in the part before it, or in the part after it. ORDER BY on a set of ids lists each once,
 in ascending order.
 */
module Text {

  /** Lexicographic order by code point, as Python compares two strings. */
  predicate Precedes(a: string, b: string) {
    if b == [] then false
    else if a == [] then true
    else if a[0] != b[0] then a[0] < b[0]
    else Precedes(a[1..], b[1..])
  }

  lemma {:induction false} PrecedesIsTotal(a: string, b: string)
    ensures a == b || Precedes(a, b) || Precedes(b, a)
    ensures !(Precedes(a, b) && Precedes(b, a))
    ensures a == b ==> !Precedes(a, b)
  {
    if a != [] && b != [] && a[0] == b[0] {
      PrecedesIsTotal(a[1..], b[1..]);
      assert a == [a[0]] + a[1..] && b == [b[0]] + b[1..];
    }
  }

  lemma {:induction false} PrecedesIsTransitive(a: string, b: string, c: string)
    requires Precedes(a, b) && Precedes(b, c)
    ensures Precedes(a, c)
  {
    if a != [] && a[0] == b[0] && b[0] == c[0] {
      PrecedesIsTransitive(a[1..], b[1..], c[1..]);
    }
  }

  /** The smaller text is a proper prefix of the other, or has the smaller character where they first differ. */
  predicate SmallerAt(a: string, b: string, k: nat) {
    k <= |a| && k < |b| && a[..k] == b[..k] && (k == |a| || a[k] < b[k])
  }

  lemma {:induction false} PrecedesIsByCodePoint(a: string, b: string)
    ensures Precedes(a, b) <==> exists k: nat :: SmallerAt(a, b, k)
  {
    if a != [] && b != [] && a[0] == b[0] {
      PrecedesIsByCodePoint(a[1..], b[1..]);
      if Precedes(a, b) {
        var k: nat :| SmallerAt(a[1..], b[1..], k);
        assert a[..k + 1] == [a[0]] + a[1..][..k] && b[..k + 1] == [b[0]] + b[1..][..k];
        assert SmallerAt(a, b, k + 1);
      }
      if k: nat :| SmallerAt(a, b, k) {
        assert k > 0;
        assert a[1..][..k - 1] == a[..k][1..] && b[1..][..k - 1] == b[..k][1..];
        assert SmallerAt(a[1..], b[1..], k - 1);
      }
    } else if b != [] && (a == [] || a[0] < b[0]) {
      assert SmallerAt(a, b, 0);
    }
  }

  predicate IsDigit(c: char) {
    '0' <= c <= '9'
  }

  function Digit(n: nat): (c: char)
    requires n < 10
    ensures IsDigit(c)
  {
    '0' + n as char
  }

  /** `str(n)` for a non-negative integer. */
  function Decimal(n: nat): (s: string)
    ensures s != []
    ensures forall i :: 0 <= i < |s| ==> IsDigit(s[i])
  {
    if n < 10 then [Digit(n)] else Decimal(n / 10) + [Digit(n % 10)]
  }

  /** `str(n)` for any integer. */
  function Signed(n: int): (s: string)
    ensures s != []
  {
    if n < 0 then "-" + Decimal(-n) else Decimal(n)
  }

  /** The number a text of digits stands for. */
  function ValueOf(digits: string): int {
    if digits == [] then 0 else 10 * ValueOf(digits[..|digits| - 1]) + (digits[|digits| - 1] as int - '0' as int)
  }

  /** A printed number reads back as itself, and starts with a zero only if it is zero. */
  lemma {:induction false} DecimalReadsBack(n: nat)
    ensures ValueOf(Decimal(n)) == n
    ensures Decimal(n)[0] == '0' ==> n == 0 && Decimal(n) == "0"
  {
    if n >= 10 {
      DecimalReadsBack(n / 10);
      assert Decimal(n)[..|Decimal(n)| - 1] == Decimal(n / 10);
    } else {
      assert Decimal(n)[..0] == [];
    }
  }

  lemma {:induction false} DecimalIsInjective(m: nat, n: nat)
    requires Decimal(m) == Decimal(n)
    ensures m == n
  {
    DecimalReadsBack(m);
    DecimalReadsBack(n);
  }

  /** A run of digits that a separator follows can be read back from the front. */
  lemma SplitAtSeparator(a: string, b: string, u: string, v: string, separator: char)
    requires a + [separator] + u == b + [separator] + v
    requires separator !in a && separator !in b
    ensures a == b && u == v
  {
    var s, t := a + [separator] + u, b + [separator] + v;
    assert s[|a|] == separator && t[|b|] == separator;
    assert a == s[..|a|] && b == t[..|b|];
    assert u == s[|a| + 1..] && v == t[|b| + 1..];
  }

  /** A text that a separator precedes can be read back from the end. */
  lemma SplitAtLastSeparator(u: string, v: string, a: string, b: string, separator: char)
    requires u + [separator] + a == v + [separator] + b
    requires separator !in a && separator !in b
    ensures u == v && a == b
  {
    var s, t := u + [separator] + a, v + [separator] + b;
    assert s[|u|] == separator && t[|v|] == separator;
    assert u == s[..|u|] && v == t[..|v|];
    assert a == s[|u| + 1..] && b == t[|v| + 1..];
  }

  predicate Ascending(ids: seq<string>) {
    forall i, j :: 0 <= i < j < |ids| ==> Precedes(ids[i], ids[j])
  }

  /** ORDER BY on a unique text column. */
  method Sort(ids: set<string>) returns (sorted: seq<string>)
    ensures Ascending(sorted)
    ensures forall s :: s in sorted <==> s in ids
  {
    sorted := [];
    var rest := ids;
    while rest != {}
      invariant rest <= ids && Ascending(sorted)
      invariant forall s :: s in ids <==> s in rest || s in sorted
      invariant forall s, t :: s in sorted && t in rest ==> Precedes(s, t)
      decreases rest
    {
      var first := First(rest);
      rest := rest - {first};
      sorted := sorted + [first];
    }
  }

  method First(ids: set<string>) returns (first: string)
    requires ids != {}
    ensures first in ids && forall s :: s in ids && s != first ==> Precedes(first, s)
  {
    first :| first in ids;
    var rest := ids - {first};
    while rest != {}
      invariant first in ids && rest <= ids
      invariant forall s :: s in ids - rest && s != first ==> Precedes(first, s)
      decreases rest
    {
      var s :| s in rest;
      rest := rest - {s};
      PrecedesIsTotal(first, s);
      if Precedes(s, first) {
        forall t | t in ids - rest && t != s ensures Precedes(s, t) {
          if t != first {
            PrecedesIsTransitive(s, first, t);
          }
        }
        first := s;
      }
    }
  }

  lemma AscendingIsDistinct(ids: seq<string>)
    requires Ascending(ids)
    ensures forall i, j :: 0 <= i < j < |ids| ==> ids[i] != ids[j]
  {
    forall i, j | 0 <= i < j < |ids| ensures ids[i] != ids[j] {
      PrecedesIsTotal(ids[i], ids[j]);
    }
  }
}
