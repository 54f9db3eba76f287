/**
 * JavaScript values as the audio code sees them: numbers with their
 * non-finite members, and the dynamic values carried by messages and
 * saved patch data. Arithmetic is exact (`real`); the rounding of IEEE
 * doubles and of Float32Array storage is not modelled, and -0 is 0.
 */
module JsValues {

  datatype Option<T> = None | Some(value: T)

  /** A JavaScript number. */
  datatype Num = Fin(v: real) | NaN | PosInf | NegInf {
    /** Number.isFinite */
    predicate IsFinite() { Fin? }
  }

  /** The contents of a new Float32Array(n): n zeros. */
  function Zeros(n: nat): (z: seq<real>)
    ensures |z| == n && forall i :: 0 <= i < n ==> z[i] == 0.0
  {
    seq(n, _ => 0.0)
  }

  function Abs(x: real): real { if x < 0.0 then -x else x }

  /** Math.round: the nearest integer, halves rounded towards +Infinity. */
  function Round(x: real): (r: int)
    ensures x - 0.5 < r as real <= x + 0.5
  {
    (x + 0.5).Floor
  }

  /** Truncation towards zero, the integer part used by JavaScript's `%`. */
  function Trunc(x: real): (r: int)
    ensures x >= 0.0 ==> 0 <= r && r as real <= x < r as real + 1.0
    ensures x < 0.0 ==> r <= 0 && x <= r as real < x + 1.0
  {
    if x >= 0.0 then x.Floor else -((-x).Floor)
  }

  /** JavaScript's `%` on finite numbers: the result has the sign of `a`. */
  function Rem(a: real, b: real): (r: real)
    requires b != 0.0
    ensures Abs(r) < Abs(b)
    ensures a >= 0.0 ==> r >= 0.0
    ensures a <= 0.0 ==> r <= 0.0
  {
    var t := Trunc(a / b);
    var r := a - b * t as real;
    RemBounds(a, b, t);
    r
  }

  lemma RemBounds(a: real, b: real, t: int)
    requires b != 0.0 && t == Trunc(a / b)
    ensures Abs(a - b * t as real) < Abs(b)
    ensures a >= 0.0 ==> a - b * t as real >= 0.0
    ensures a <= 0.0 ==> a - b * t as real <= 0.0
  {
    var q := a / b;
    var f := q - t as real;
    assert b * q == a;
    assert a - b * t as real == b * f;
    assert q >= 0.0 ==> 0.0 <= f < 1.0;
    assert q < 0.0 ==> -1.0 < f <= 0.0;
    QuotientSign(a, b);
    MulSigns(b, f);
    AbsProduct(b, f);
  }

  lemma QuotientSign(a: real, b: real)
    requires b != 0.0
    ensures (a >= 0.0 && b > 0.0) || (a <= 0.0 && b < 0.0) ==> a / b >= 0.0
    ensures (a >= 0.0 && b < 0.0) || (a <= 0.0 && b > 0.0) ==> a / b <= 0.0
  {
    var q := a / b;
    assert b * q == a;
    MulSigns(b, q);
  }

  lemma AbsProduct(b: real, f: real)
    requires b != 0.0 && Abs(f) < 1.0
    ensures Abs(b * f) < Abs(b)
  {
    if f >= 0.0 {
      if b > 0.0 { assert b * f < b * 1.0; } else { assert b * f > b * 1.0; }
    } else {
      if b > 0.0 { assert b * -f < b * 1.0; } else { assert b * -f > b * 1.0; }
    }
  }

  lemma MulSigns(x: real, y: real)
    ensures (x >= 0.0 && y >= 0.0) || (x <= 0.0 && y <= 0.0) ==> x * y >= 0.0
    ensures (x >= 0.0 && y <= 0.0) || (x <= 0.0 && y >= 0.0) ==> x * y <= 0.0
    ensures x > 0.0 && y > 0.0 ==> x * y > 0.0
    ensures x < 0.0 && y < 0.0 ==> x * y > 0.0
    ensures (x > 0.0 && y < 0.0) || (x < 0.0 && y > 0.0) ==> x * y < 0.0
  {
  }

  /** `a < b` on JavaScript numbers: false whenever one side is NaN. */
  predicate Less(a: Num, b: Num) {
    match (a, b)
    case (Fin(x), Fin(y)) => x < y
    case (Fin(_), PosInf) => true
    case (NegInf, Fin(_)) => true
    case (NegInf, PosInf) => true
    case _ => false
  }

  /** `a <= b` on JavaScript numbers. */
  predicate LessEq(a: Num, b: Num) {
    Less(a, b) || (a == b && !a.NaN?)
  }

  /** Math.max of two numbers: NaN when either is NaN. */
  function Max(a: Num, b: Num): (r: Num)
    ensures a.NaN? || b.NaN? <==> r.NaN?
    ensures !r.NaN? ==> LessEq(a, r) && LessEq(b, r) && (r == a || r == b)
  {
    if a.NaN? || b.NaN? then NaN else if Less(a, b) then b else a
  }

  /** Math.min of two numbers: NaN when either is NaN. */
  function Min(a: Num, b: Num): (r: Num)
    ensures a.NaN? || b.NaN? <==> r.NaN?
    ensures !r.NaN? ==> LessEq(r, a) && LessEq(r, b) && (r == a || r == b)
  {
    if a.NaN? || b.NaN? then NaN else if Less(b, a) then b else a
  }

  /** Math.floor */
  function Floor(a: Num): Num {
    if a.Fin? then Fin(a.v.Floor as real) else a
  }

  /** Math.round */
  function RoundNum(a: Num): Num {
    if a.Fin? then Fin(Round(a.v) as real) else a
  }

  /** `a + b` */
  function Add(a: Num, b: Num): Num {
    match (a, b)
    case (Fin(x), Fin(y)) => Fin(x + y)
    case (NaN, _) => NaN
    case (_, NaN) => NaN
    case (PosInf, NegInf) => NaN
    case (NegInf, PosInf) => NaN
    case (PosInf, _) => PosInf
    case (NegInf, _) => NegInf
    case (_, PosInf) => PosInf
    case (_, NegInf) => NegInf
  }

  /** The sign of a number as -1, 0 or 1; NaN has no sign. */
  function Sign(a: Num): int
    requires !a.NaN?
  {
    match a
    case Fin(x) => if x > 0.0 then 1 else if x < 0.0 then -1 else 0
    case PosInf => 1
    case NegInf => -1
  }

  /** `a * b` */
  function Mul(a: Num, b: Num): Num {
    if a.NaN? || b.NaN? then NaN
    else if a.Fin? && b.Fin? then Fin(a.v * b.v)
    else if Sign(a) * Sign(b) == 0 then NaN
    else if Sign(a) * Sign(b) > 0 then PosInf else NegInf
  }

  /** Unary `-a` */
  function Neg(a: Num): Num {
    match a
    case Fin(x) => Fin(-x)
    case NaN => NaN
    case PosInf => NegInf
    case NegInf => PosInf
  }

  /** Math.abs */
  function AbsNum(a: Num): (r: Num)
    ensures r.NaN? <==> a.NaN?
    ensures r.Fin? <==> a.Fin?
    ensures r.Fin? ==> r.v >= 0.0
  {
    match a
    case Fin(x) => Fin(Abs(x))
    case NaN => NaN
    case _ => PosInf
  }

  /** `a / b`; a zero divisor counts as +0. */
  function Div(a: Num, b: Num): Num {
    if a.NaN? || b.NaN? then NaN
    else if b.Fin? && b.v != 0.0 then
      if a.Fin? then Fin(a.v / b.v) else (if (Sign(a) > 0) == (b.v > 0.0) then PosInf else NegInf)
    else if b.Fin? then
      if a.Fin? && a.v == 0.0 then NaN else if Sign(a) > 0 then PosInf else NegInf
    else if a.Fin? then Fin(0.0)
    else NaN
  }

  /** Dynamic JavaScript values as carried by messages and saved data. */
  datatype Val =
    | Undefined
    | Null
    | Bool(b: bool)
    | Number(n: Num)
    | Str(s: string)
    | Arr(items: seq<Val>)
    | Obj(fields: map<string, Val>)

  /** JavaScript truthiness. */
  predicate Truthy(x: Val) {
    match x
    case Undefined => false
    case Null => false
    case Bool(b) => b
    case Number(n) => !(n.NaN? || n == Fin(0.0))
    case Str(s) => s != ""
    case _ => true
  }

  /** `typeof x === 'object'` (true for null and arrays too). */
  predicate IsObject(x: Val) {
    x.Null? || x.Arr? || x.Obj?
  }

  /** Property read `x[key]`; undefined where there is no such property. */
  function Get(x: Val, key: string): Val {
    if x.Obj? && key in x.fields then x.fields[key] else Undefined
  }

  /** `typeof x === 'number'` */
  predicate IsNumber(x: Val) { x.Number? }

  /** `x === 'text'` for a string literal. */
  predicate IsString(x: Val, text: string) { x == Str(text) }

  /**
   * Number(x). The parse of a string is the host's, given as `parse`;
   * arrays and objects convert through their string form, which is not
   * modelled, and give NaN here.
   */
  function ToNumber(x: Val, parse: string -> Num): Num {
    match x
    case Undefined => NaN
    case Null => Fin(0.0)
    case Bool(b) => if b then Fin(1.0) else Fin(0.0)
    case Number(n) => n
    case Str(s) => parse(s)
    case _ => NaN
  }
}
