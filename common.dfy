/**
 * Values shared by every part of the finance dashboard: the transaction and
 * budget records the components pass around, an option type, the JavaScript
 * number cases that an unguarded division can produce, and sums.
 */
module Common {

  datatype Option<T> = None | Some(value: T)

  /** A transaction as the application keeps it (`{id, type, category, amount,
      description, date, time}`); `kind` is the source's `type` field and
      `date` is the text the record carries. */
  datatype Transaction = Transaction(
    id: int,
    kind: string,
    category: string,
    amount: real,
    description: string,
    date: string,
    time: string)

  /** What the add form hands to the application: `{type, category, amount,
      description}`, before the id, date and time are filled in. */
  datatype Draft = Draft(kind: string, category: string, amount: real, description: string)

  /** A budget line `{category, budget, spent, color}`. */
  datatype Budget = Budget(category: string, budget: real, spent: real, color: string)

  /** The three status colours the pages share. */
  const Green := "#10b981"
  const Amber := "#f59e0b"
  const Red := "#ef4444"

  /** A JavaScript number, as far as the divisions the source leaves unguarded
      can take it: a finite value, either infinity, or NaN. Signed zero is not
      distinguished. */
  datatype JsNum = Fin(r: real) | PosInf | NegInf | NaN

  function Neg(a: JsNum): JsNum
  {
    match a
    case Fin(x) => Fin(-x)
    case PosInf => NegInf
    case NegInf => PosInf
    case NaN => NaN
  }

  function Add(a: JsNum, b: JsNum): JsNum
  {
    match (a, b)
    case (NaN, _) => NaN
    case (_, NaN) => NaN
    case (PosInf, NegInf) => NaN
    case (NegInf, PosInf) => NaN
    case (PosInf, _) => PosInf
    case (_, PosInf) => PosInf
    case (NegInf, _) => NegInf
    case (_, NegInf) => NegInf
    case (Fin(x), Fin(y)) => Fin(x + y)
  }

  function Sub(a: JsNum, b: JsNum): JsNum
  {
    Add(a, Neg(b))
  }

  /** The sign of a number as -1, 0 or 1; NaN has none. */
  function Sign(a: JsNum): int
    requires !a.NaN?
  {
    match a
    case Fin(x) => if x > 0.0 then 1 else if x < 0.0 then -1 else 0
    case PosInf => 1
    case NegInf => -1
  }

  function InfOfSign(s: int): JsNum
  {
    if s > 0 then PosInf else if s < 0 then NegInf else NaN
  }

  function Mul(a: JsNum, b: JsNum): JsNum
  {
    if a.NaN? || b.NaN? then NaN
    else if a.Fin? && b.Fin? then Fin(a.r * b.r)
    else InfOfSign(Sign(a) * Sign(b))
  }

  function Div(a: JsNum, b: JsNum): JsNum
  {
    if a.NaN? || b.NaN? then NaN
    else if a.Fin? && b.Fin? then
      if b.r != 0.0 then Fin(a.r / b.r) else InfOfSign(Sign(a))
    else if b.Fin? then InfOfSign(Sign(a) * (if b.r < 0.0 then -1 else 1))
    else if a.Fin? then Fin(0.0)
    else NaN
  }

  /** `Math.round`: the nearest integer, halves rounded up. */
  function Round(a: JsNum): JsNum
  {
    if a.Fin? then Fin(((a.r + 0.5).Floor) as real) else a
  }

  /** `Math.max` of two numbers: NaN when either is NaN. */
  function Max(a: JsNum, b: JsNum): JsNum
  {
    if a.NaN? || b.NaN? then NaN
    else if Ge(a, b) then a else b
  }

  /** `Math.min` of two numbers: NaN when either is NaN. */
  function Min(a: JsNum, b: JsNum): JsNum
  {
    if a.NaN? || b.NaN? then NaN
    else if Ge(a, b) then b else a
  }

  /** `a >= b`; false whenever NaN takes part. */
  predicate Ge(a: JsNum, b: JsNum)
  {
    match (a, b)
    case (NaN, _) => false
    case (_, NaN) => false
    case (PosInf, _) => true
    case (_, NegInf) => true
    case (NegInf, _) => false
    case (_, PosInf) => false
    case (Fin(x), Fin(y)) => x >= y
  }

  /** `a > b`; false whenever NaN takes part. */
  predicate Gt(a: JsNum, b: JsNum)
  {
    Ge(a, b) && a != b
  }

  /** A number is truthy unless it is 0 or NaN. */
  predicate Truthy(a: JsNum)
  {
    a != Fin(0.0) && !a.NaN?
  }

  predicate IsInteger(x: real)
  {
    x == (x.Floor) as real
  }

  /** Left-to-right sum, as `reduce((sum, x) => sum + x, 0)` computes it. */
  function Sum(xs: seq<real>): real
  {
    if |xs| == 0 then 0.0 else Sum(xs[..|xs| - 1]) + xs[|xs| - 1]
  }

  lemma {:induction false} SumConcat(xs: seq<real>, ys: seq<real>)
    ensures Sum(xs + ys) == Sum(xs) + Sum(ys)
    decreases |ys|
  {
    if |ys| == 0 {
      assert xs + ys == xs;
    } else {
      var n := |ys| - 1;
      assert (xs + ys)[..|xs + ys| - 1] == xs + ys[..n];
      SumConcat(xs, ys[..n]);
    }
  }

  lemma {:induction false} SumNonNegative(xs: seq<real>)
    requires forall i :: 0 <= i < |xs| ==> xs[i] >= 0.0
    ensures Sum(xs) >= 0.0
    decreases |xs|
  {
    if |xs| > 0 {
      SumNonNegative(xs[..|xs| - 1]);
    }
  }

  /** The amounts of a list of transactions, in order. */
  function Amounts(txs: seq<Transaction>): (r: seq<real>)
    ensures |r| == |txs| && forall i :: 0 <= i < |txs| ==> r[i] == txs[i].amount
  {
    seq(|txs|, i requires 0 <= i < |txs| => txs[i].amount)
  }

  /** The sum of all amounts, left to right. */
  function AmountTotal(txs: seq<Transaction>): real
  {
    if |txs| == 0 then 0.0 else AmountTotal(txs[..|txs| - 1]) + txs[|txs| - 1].amount
  }

  /** The transactions whose `type` is exactly `kind`, in order. */
  function OfKind(txs: seq<Transaction>, kind: string): (r: seq<Transaction>)
    ensures forall t :: t in r ==> t in txs && t.kind == kind
    ensures forall t :: t in txs && t.kind == kind ==> t in r
    ensures |r| <= |txs|
  {
    if |txs| == 0 then []
    else
      var last := txs[|txs| - 1];
      OfKind(txs[..|txs| - 1], kind) + (if last.kind == kind then [last] else [])
  }

  /** The transactions whose `type` is anything but `kind`, in order. */
  function NotOfKind(txs: seq<Transaction>, kind: string): (r: seq<Transaction>)
    ensures forall t :: t in r ==> t in txs && t.kind != kind
    ensures |r| <= |txs|
  {
    if |txs| == 0 then []
    else
      var last := txs[|txs| - 1];
      NotOfKind(txs[..|txs| - 1], kind) + (if last.kind != kind then [last] else [])
  }

  /** `txs.filter(t => t.type === kind).reduce((s, t) => s + t.amount, 0)`. */
  function TotalOfKind(txs: seq<Transaction>, kind: string): real
  {
    AmountTotal(OfKind(txs, kind))
  }

  lemma {:induction false} AmountTotalConcat(xs: seq<Transaction>, ys: seq<Transaction>)
    ensures AmountTotal(xs + ys) == AmountTotal(xs) + AmountTotal(ys)
    decreases |ys|
  {
    if |ys| == 0 {
      assert xs + ys == xs;
    } else {
      var n := |ys| - 1;
      assert (xs + ys)[..|xs + ys| - 1] == xs + ys[..n];
      AmountTotalConcat(xs, ys[..n]);
    }
  }

  lemma AmountTotalSnoc(m: seq<Transaction>, t: Transaction)
    ensures AmountTotal(m + [t]) == AmountTotal(m) + t.amount
  {
    assert (m + [t])[..|m|] == m;
  }

  /** With only non-negative amounts the total is non-negative. */
  lemma {:induction false} AmountTotalNonNegative(txs: seq<Transaction>)
    requires forall t :: t in txs ==> t.amount >= 0.0
    ensures AmountTotal(txs) >= 0.0
    decreases |txs|
  {
    if |txs| > 0 {
      assert forall t :: t in txs[..|txs| - 1] ==> t in txs;
      AmountTotalNonNegative(txs[..|txs| - 1]);
    }
  }

  /** The distinct elements of `xs` in order of first appearance. */
  function Dedup<T(==, !new)>(xs: seq<T>): (d: seq<T>)
    ensures forall x :: x in d <==> x in xs
    ensures forall i, j :: 0 <= i < j < |d| ==> d[i] != d[j]
  {
    if |xs| == 0 then []
    else
      var d := Dedup(xs[..|xs| - 1]);
      var x := xs[|xs| - 1];
      assert forall y :: y in xs <==> y in xs[..|xs| - 1] || y == x by {
        assert xs == xs[..|xs| - 1] + [x];
      }
      if x in d then d else d + [x]
  }

  /** The index of the first occurrence of `x`. */
  function FirstIndex<T(==)>(xs: seq<T>, x: T): (r: nat)
    requires x in xs
    ensures r < |xs| && xs[r] == x
    ensures forall j :: 0 <= j < r ==> xs[j] != x
  {
    if xs[0] == x then 0 else 1 + FirstIndex(xs[1..], x)
  }

  /** The first occurrence is the only index with `x` and none before. */
  lemma FirstIndexUnique<T>(xs: seq<T>, x: T, r: nat)
    requires r < |xs| && xs[r] == x
    requires forall j :: 0 <= j < r ==> xs[j] != x
    ensures FirstIndex(xs, x) == r
  {
    var q := FirstIndex(xs, x);
    assert q <= r;
    assert r <= q;
  }

  lemma FirstIndexIn<T>(xs: seq<T>, n: nat, x: T)
    requires n <= |xs| && x in xs[..n]
    ensures FirstIndex(xs, x) == FirstIndex(xs[..n], x)
  {
    var r := FirstIndex(xs[..n], x);
    assert forall j :: 0 <= j < r ==> xs[j] == xs[..n][j];
    FirstIndexUnique(xs, x, r);
  }

  /** An element found only in the second part is found past the first. */
  lemma FirstIndexAfter<T>(xs: seq<T>, ys: seq<T>, x: T)
    requires x !in xs && x in ys
    ensures FirstIndex(xs + ys, x) == |xs| + FirstIndex(ys, x)
  {
    var r := FirstIndex(ys, x);
    forall j | 0 <= j < |xs| + r
      ensures (xs + ys)[j] != x
    {
      if j >= |xs| {
        assert (xs + ys)[j] == ys[j - |xs|];
      }
    }
    FirstIndexUnique(xs + ys, x, |xs| + r);
  }

  /** `Dedup` lists its elements in the order they first appear. */
  lemma {:induction false} DedupFirstAppearance<T(!new)>(xs: seq<T>)
    ensures forall i, j :: 0 <= i < j < |Dedup(xs)| ==>
      FirstIndex(xs, Dedup(xs)[i]) < FirstIndex(xs, Dedup(xs)[j])
  {
    if |xs| > 0 {
      var n := |xs| - 1;
      var init := xs[..n];
      var x := xs[n];
      DedupFirstAppearance(init);
      var d := Dedup(init);
      forall y | y in d
        ensures FirstIndex(xs, y) == FirstIndex(init, y) < n
      {
        FirstIndexIn(xs, n, y);
      }
      if x !in d {
        assert x !in init;
        forall j | 0 <= j < n
          ensures xs[j] != x
        {
          assert xs[j] == init[j];
        }
        assert FirstIndex(xs, x) == n;
      }
    }
  }

  /** A ratio `r` with `r * b == s * 100` of a part `s` of `b`. */
  lemma RatioBetween(r: real, b: real, s: real)
    requires b > 0.0 && r * b == s * 100.0 && 0.0 < s <= b
    ensures 0.0 < r <= 100.0
  {
  }

  /** A ratio times a positive base: `r * b == s * 100` puts `r` at or
      above `k` exactly when `s * 100` is at or above `k * b`. */
  lemma RatioAtLeast(r: real, b: real, s: real, k: real)
    requires b > 0.0 && r * b == s * 100.0
    ensures r >= k <==> s * 100.0 >= k * b
  {
    assert (r - k) * b == s * 100.0 - k * b;
    if r >= k {
      assert (r - k) * b >= 0.0;
    } else {
      assert (k - r) * b > 0.0;
    }
  }
}
