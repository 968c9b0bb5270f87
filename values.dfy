/** The runtime values of the tape machine (`Value` in imsta.rs) and the floats inside them. */
module Values {

  /** An f64, kept as its bit pattern; the tape stores exactly these bits. */
  datatype Num = Num(bits: nat)

  /** 0.0 and 1.0 as IEEE-754 double bit patterns. */
  const Zero: Num := Num(0)
  const One: Num := Num(0x3FF0_0000_0000_0000)

  /** Float arithmetic and `<` are left abstract: every result proved here holds for any choice. */
  datatype FloatOps = FloatOps(
    add: (Num, Num) -> Num,
    sub: (Num, Num) -> Num,
    mul: (Num, Num) -> Num,
    div: (Num, Num) -> Num,
    less: (Num, Num) -> bool)

  datatype Value = Nil | Boolean(b: bool) | Float(x: Num)

  /** `Value::truthy`: only `true` and the float 1.0 are truthy. */
  function Truthy(v: Value): (r: bool)
    ensures r <==> v == Boolean(true) || v == Float(One)
    ensures v.Float? && v.x == Zero ==> !r
  {
    match v
    case Nil => false
    case Boolean(b) => b
    case Float(x) => x == One
  }

  /** The position of a variant in the declaration; the derived order compares it first. */
  function Rank(v: Value): nat {
    match v
    case Nil => 0
    case Boolean(_) => 1
    case Float(_) => 2
  }

  /** The derived `PartialOrd` on `Value`: variants in declaration order, then their payloads. */
  predicate Less(fp: FloatOps, l: Value, r: Value): (lt: bool)
    ensures Rank(l) < Rank(r) ==> lt
    ensures Rank(r) < Rank(l) ==> !lt
    ensures l.Nil? && r.Nil? ==> !lt
  {
    || Rank(l) < Rank(r)
    || (l.Boolean? && r.Boolean? && !l.b && r.b)
    || (l.Float? && r.Float? && fp.less(l.x, r.x))
  }

  /** The derived `<=`: `<` or equal. */
  predicate LessEq(fp: FloatOps, l: Value, r: Value): (le: bool)
    ensures l == r ==> le
    ensures Less(fp, l, r) ==> le
    ensures le && Rank(l) != Rank(r) ==> Rank(l) < Rank(r)
  {
    Less(fp, l, r) || l == r
  }

  ghost predicate StrictTotalOrder(lt: (Num, Num) -> bool) {
    && (forall a :: !lt(a, a))
    && (forall a, b, c :: lt(a, b) && lt(b, c) ==> lt(a, c))
    && (forall a, b :: a != b ==> lt(a, b) || lt(b, a))
  }

  /** Nil < Boolean < Float, and false < true, whatever the float order is. */
  lemma VariantOrder(fp: FloatOps, b: bool, x: Num)
    ensures Less(fp, Nil, Boolean(b)) && Less(fp, Boolean(b), Float(x)) && Less(fp, Nil, Float(x))
    ensures Less(fp, Boolean(false), Boolean(true)) && !Less(fp, Boolean(true), Boolean(false))
    ensures !Less(fp, Nil, Nil)
  {
  }

  /** When the float order is a strict total order, so is the order on values. */
  lemma ValueOrderTotal(fp: FloatOps, u: Value, v: Value, w: Value)
    requires StrictTotalOrder(fp.less)
    ensures !Less(fp, u, u)
    ensures Less(fp, u, v) && Less(fp, v, w) ==> Less(fp, u, w)
    ensures u == v || Less(fp, u, v) || Less(fp, v, u)
    ensures Less(fp, u, v) ==> !Less(fp, v, u)
  {
  }
}
