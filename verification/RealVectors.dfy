/** Vectors of reals with the element-wise operations of the numerical code. */
module RealVectors {
  type Vector = seq<real>

  function Zeros(n: nat): (v: Vector)
    ensures |v| == n && forall i :: 0 <= i < n ==> v[i] == 0.0
  {
    seq(n, _ => 0.0)
  }

  function Plus(a: Vector, b: Vector): (v: Vector)
    requires |a| == |b|
    ensures |v| == |a| && forall i :: 0 <= i < |a| ==> v[i] == a[i] + b[i]
  {
    seq(|a|, i requires 0 <= i < |a| => a[i] + b[i])
  }

  function Times(c: real, a: Vector): (v: Vector)
    ensures |v| == |a| && forall i :: 0 <= i < |a| ==> v[i] == c * a[i]
  {
    seq(|a|, i requires 0 <= i < |a| => c * a[i])
  }

  function Over(a: Vector, d: real): (v: Vector)
    requires d != 0.0
    ensures |v| == |a| && forall i :: 0 <= i < |a| ==> v[i] == a[i] / d
  {
    seq(|a|, i requires 0 <= i < |a| => a[i] / d)
  }
}
