/**
 * Value types and string helpers shared by every part of the model:
 * JavaScript's `null`/value choice, the outcome of an awaited call, and the
 * few `String`/`Array` operations the caching code relies on
 * (`startsWith`, `join`, the rendering of an integer by a template literal).
 */
module Base {

  /** A value that may be JavaScript's `null` (or an absent entry). */
  datatype Option<T> = None | Some(value: T) {
    function GetOr(default: T): T {
      if Some? then value else default
    }
  }

  /** What an awaited call produced: the value it resolved to, or the error it threw. */
  datatype Outcome<R> = Returned(value: R) | Threw(error: string)

  /** `s.startsWith(prefix)` */
  predicate StartsWith(s: string, prefix: string) {
    |prefix| <= |s| && s[..|prefix|] == prefix
  }

  lemma StartsWithConcat(prefix: string, rest: string)
    ensures StartsWith(prefix + rest, prefix)
  {
    assert (prefix + rest)[..|prefix|] == prefix;
  }

  /** `parts.join(sep)` */
  function Join(parts: seq<string>, sep: string): string {
    if |parts| == 0 then ""
    else if |parts| == 1 then parts[0]
    else parts[0] + sep + Join(parts[1..], sep)
  }

  /** Number of occurrences of `c` in `s`. */
  function CountChar(s: string, c: char): nat {
    if |s| == 0 then 0 else (if s[0] == c then 1 else 0) + CountChar(s[1..], c)
  }

  /** Total number of occurrences of `c` in all of `parts`. */
  function SumCount(parts: seq<string>, c: char): nat {
    if |parts| == 0 then 0 else CountChar(parts[0], c) + SumCount(parts[1..], c)
  }

  lemma {:induction false} CountCharConcat(a: string, b: string, c: char)
    ensures CountChar(a + b, c) == CountChar(a, c) + CountChar(b, c)
  {
    if |a| > 0 {
      assert (a + b)[1..] == a[1..] + b;
      CountCharConcat(a[1..], b, c);
    } else {
      assert a + b == b;
    }
  }

  /**
   * Joining with a one-character separator adds exactly one separator
   * between consecutive parts and nothing else.
   */
  lemma {:induction false} JoinCount(parts: seq<string>, c: char)
    ensures CountChar(Join(parts, [c]), c) == (if |parts| == 0 then 0 else |parts| - 1) + SumCount(parts, c)
  {
    if |parts| == 0 {
    } else if |parts| == 1 {
      assert SumCount(parts[1..], c) == 0;
    } else {
      JoinCount(parts[1..], c);
      CountCharConcat(parts[0], [c], c);
      CountCharConcat(parts[0] + [c], Join(parts[1..], [c]), c);
      assert CountChar([c], c) == 1 by {
        assert [c][1..] == [];
      }
    }
  }

  /** Decimal digit for `d`. */
  function Digit(d: nat): char
    requires d < 10
  {
    "0123456789"[d]
  }

  /** `${n}` for a natural number: its decimal digits, most significant first. */
  function NatToString(n: nat): (s: string)
    ensures |s| > 0
    ensures forall i :: 0 <= i < |s| ==> '0' <= s[i] <= '9'
    ensures n < 10 <==> |s| == 1
  {
    if n < 10 then [Digit(n)] else NatToString(n / 10) + [Digit(n % 10)]
  }

  /** `${n}` for an integer (a JavaScript number with an integral value). */
  function IntToString(n: int): (s: string)
    ensures |s| > 0
    ensures n >= 0 <==> '0' <= s[0] <= '9'
  {
    if n < 0 then "-" + NatToString(-n) else NatToString(n)
  }

  /** No element occurs twice. */
  predicate Distinct<T(==)>(s: seq<T>) {
    forall i, j :: 0 <= i < j < |s| ==> s[i] != s[j]
  }

  /** A prefix one longer is the shorter prefix and the next element. */
  lemma PrefixStep<X>(s: seq<X>, j: nat)
    requires j < |s|
    ensures s[..j + 1] == s[..j] + [s[j]]
  {
  }

  /** The keys `s` with every key of `drop` filtered out, order kept. */
  function Minus(s: seq<string>, drop: set<string>): (r: seq<string>)
    ensures forall x :: x in r <==> x in s && x !in drop
    ensures |r| <= |s|
  {
    if |s| == 0 then []
    else if s[0] in drop then Minus(s[1..], drop)
    else [s[0]] + Minus(s[1..], drop)
  }

  /** Filtering keeps the keys distinct. */
  lemma {:induction false} MinusDistinct(s: seq<string>, drop: set<string>)
    ensures Distinct(s) ==> Distinct(Minus(s, drop))
  {
    if |s| > 0 && Distinct(s) {
      MinusDistinct(s[1..], drop);
      if s[0] !in drop {
        var r := Minus(s[1..], drop);
        assert s[0] !in s[1..];
        forall i, j | 0 <= i < j < |[s[0]] + r|
          ensures ([s[0]] + r)[i] != ([s[0]] + r)[j]
        {
          if i == 0 {
            assert ([s[0]] + r)[j] == r[j - 1];
          }
        }
      }
    }
  }

  /** Filtering twice is filtering once by both sets. */
  lemma {:induction false} MinusMinus(s: seq<string>, a: set<string>, b: set<string>)
    ensures Minus(Minus(s, a), b) == Minus(s, a + b)
  {
    if |s| > 0 {
      MinusMinus(s[1..], a, b);
      if s[0] !in a && s[0] !in b {
        assert Minus(s, a)[1..] == Minus(s[1..], a);
      } else if s[0] !in a {
        assert Minus(s, a)[1..] == Minus(s[1..], a);
      }
    }
  }

  /** Filtering out elements that do not occur changes nothing. */
  lemma {:induction false} MinusAbsent(s: seq<string>, drop: set<string>)
    requires forall x :: x in drop ==> x !in s
    ensures Minus(s, drop) == s
  {
    if |s| > 0 {
      MinusAbsent(s[1..], drop);
      assert s == [s[0]] + s[1..];
    }
  }
}
