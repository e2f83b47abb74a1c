/** Small vocabulary shared by every model of the coordination plane. */
module Prelude {

  datatype Option<+T> = None | Some(value: T)

  type Byte = b: int | 0 <= b < 256

  type Bytes = seq<Byte>

  /** The concatenation of a list of byte strings. */
  function Concat(parts: seq<Bytes>): Bytes {
    if parts == [] then [] else parts[0] + Concat(parts[1..])
  }

  lemma {:induction false} ConcatAppend(xs: seq<Bytes>, ys: seq<Bytes>)
    ensures Concat(xs + ys) == Concat(xs) + Concat(ys)
  {
    if xs == [] {
      assert xs + ys == ys;
    } else {
      assert (xs + ys)[1..] == xs[1..] + ys;
      ConcatAppend(xs[1..], ys);
    }
  }

  lemma ConcatOne(x: Bytes)
    ensures Concat([x]) == x
  {
    var one: seq<Bytes> := [x];
    assert one[1..] == [] && Concat(one) == x + [];
  }

  /** The elements that satisfy `f`, in order. */
  function Keep<T>(xs: seq<T>, f: T -> bool): (r: seq<T>)
    ensures forall i :: 0 <= i < |r| ==> r[i] in xs && f(r[i])
  {
    if xs == [] then [] else (if f(xs[0]) then [xs[0]] else []) + Keep(xs[1..], f)
  }

  lemma {:induction false} KeepsOne<T>(xs: seq<T>, f: T -> bool)
    requires forall i, j :: 0 <= i < j < |xs| ==> !(f(xs[i]) && f(xs[j]))
    ensures |Keep(xs, f)| <= 1
  {
    if xs != [] {
      KeepsOne(xs[1..], f);
      if f(xs[0]) { KeepsNone(xs[1..], f); }
    }
  }

  lemma {:induction false} KeepsNone<T>(xs: seq<T>, f: T -> bool)
    requires forall i :: 0 <= i < |xs| ==> !f(xs[i])
    ensures Keep(xs, f) == []
  {
    if xs != [] { KeepsNone(xs[1..], f); }
  }

  lemma KeepSingle<T>(x: T, f: T -> bool)
    ensures Keep([x], f) == if f(x) then [x] else []
  {
    var one := [x];
    assert one[1..] == [];
  }

  function Max(x: int, y: int): int {
    if x < y then y else x
  }

  function Min(x: int, y: int): int {
    if x < y then x else y
  }

  /** The decimal digits of a natural number, as `str` prints it. */
  function Decimal(n: nat): (s: string)
    ensures |s| > 0 && forall i :: 0 <= i < |s| ==> '0' <= s[i] <= '9'
  {
    if n < 10 then [Digit(n)] else Decimal(n / 10) + [Digit(n % 10)]
  }

  /** The number that decimal digits denote. */
  function Denoted(s: string): nat
    requires forall i :: 0 <= i < |s| ==> '0' <= s[i] <= '9'
  {
    if s == [] then 0 else 10 * Denoted(s[..|s|-1]) + (s[|s|-1] as int - '0' as int)
  }

  lemma {:induction false} DecimalDenotes(n: nat)
    ensures Denoted(Decimal(n)) == n && (n > 0 ==> Decimal(n)[0] != '0')
  {
    if n >= 10 {
      DecimalDenotes(n / 10);
      assert Decimal(n)[..|Decimal(n)|-1] == Decimal(n / 10);
    } else {
      assert Decimal(n)[..0] == [];
    }
  }

  function Digit(d: nat): (c: char)
    requires d < 10
    ensures '0' <= c <= '9' && c as int - '0' as int == d
  {
    ('0' as int + d) as char
  }
}
