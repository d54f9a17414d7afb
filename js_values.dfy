/**
 * The JavaScript values the scene layer passes around: constructor arguments,
 * node properties and the arguments of 2D-context calls.  A property that was
 * never assigned reads as `Undefined`.  Numbers are reals (no rounding, no
 * infinities); every arithmetic result is either `Num` or `NaN`.
 */
module JsValues {

  datatype Option<T> = None | Some(value: T)

  datatype JsValue = Undefined | Null | Num(n: real) | NaN | Str(s: string)

  /** JavaScript truthiness (ToBoolean). */
  predicate Truthy(v: JsValue)
  {
    match v
    case Num(n) => n != 0.0
    case Str(s) => s != ""
    case _ => false
  }

  /** `v == undefined` under loose equality holds exactly for undefined and null. */
  predicate Nullish(v: JsValue)
  {
    v == Undefined || v == Null
  }

  /** JavaScript `a && b`: `a` when `a` is falsy, otherwise `b` (b is not looked at otherwise). */
  function And(a: JsValue, b: JsValue): (r: JsValue)
    ensures Truthy(a) ==> r == b
    ensures !Truthy(a) ==> r == a
  {
    if Truthy(a) then b else a
  }

  /** `a1 && a2 && ... && an`, which JavaScript groups to the left. */
  function AndAll(args: seq<JsValue>): JsValue
    requires |args| > 0
  {
    if |args| == 1 then args[0] else And(AndAll(args[..|args| - 1]), args[|args| - 1])
  }

  /** The constructor guard `(a1 && ... && an) != undefined`. */
  predicate Guard(args: seq<JsValue>)
    requires |args| > 0
  {
    !Nullish(AndAll(args))
  }

  /** Index of the first falsy argument, or |args| when every argument is truthy. */
  function FirstFalsy(args: seq<JsValue>): (k: nat)
    ensures k <= |args|
    ensures forall i :: 0 <= i < k ==> Truthy(args[i])
    ensures k < |args| ==> !Truthy(args[k])
  {
    if args == [] then 0
    else if !Truthy(args[0]) then 0
    else 1 + FirstFalsy(args[1..])
  }

  /** A chain of `&&` evaluates to its first falsy operand, or to its last operand. */
  lemma {:induction false} AndAllValue(args: seq<JsValue>)
    requires |args| > 0
    ensures FirstFalsy(args) < |args| ==> AndAll(args) == args[FirstFalsy(args)]
    ensures FirstFalsy(args) == |args| ==> AndAll(args) == args[|args| - 1]
  {
    if |args| > 1 {
      var pre := args[..|args| - 1];
      AndAllValue(pre);
      var k := FirstFalsy(pre);
      if k < |pre| {
        assert FirstFalsy(args) == k by {
          FirstFalsyPrefix(args, k);
        }
      } else {
        assert Truthy(AndAll(pre));
        FirstFalsyPrefix(args, |args| - 1);
      }
    }
  }

  /** FirstFalsy is determined by the prefix that decides it. */
  lemma FirstFalsyPrefix(args: seq<JsValue>, k: nat)
    requires k < |args|
    requires forall i :: 0 <= i < k ==> Truthy(args[i])
    ensures !Truthy(args[k]) ==> FirstFalsy(args) == k
    ensures Truthy(args[k]) ==> FirstFalsy(args) > k
  {
  }

  /**
   * The guard passes exactly when every argument is truthy, or when the first
   * falsy argument is neither undefined nor null (a 0, NaN or "" short-circuits
   * the chain to a value that is not `undefined`).
   */
  lemma GuardCases(args: seq<JsValue>)
    requires |args| > 0
    ensures Guard(args) <==>
              FirstFalsy(args) == |args| || !Nullish(args[FirstFalsy(args)])
  {
    AndAllValue(args);
    if FirstFalsy(args) == |args| {
      assert Truthy(args[|args| - 1]);
    }
  }

  /** All arguments are nonzero numbers: the guard passes. */
  lemma GuardNonzeroNumbers(args: seq<JsValue>)
    requires |args| > 0
    requires forall i :: 0 <= i < |args| ==> args[i].Num? && args[i].n != 0.0
    ensures Guard(args)
  {
    GuardCases(args);
  }

  /** The first non-truthy argument is missing (undefined or null): the guard fails. */
  lemma GuardMissing(args: seq<JsValue>, k: nat)
    requires k < |args| && Nullish(args[k])
    requires forall i :: 0 <= i < k ==> Truthy(args[i])
    ensures !Guard(args)
  {
    GuardCases(args);
    FirstFalsyPrefix(args, k);
  }

  /**
   * A 0 or NaN argument ahead of the missing ones short-circuits the chain, so
   * the guard passes however many arguments follow undefined.
   */
  lemma GuardShortCircuit(args: seq<JsValue>, k: nat)
    requires k < |args| && (args[k] == Num(0.0) || args[k] == NaN)
    requires forall i :: 0 <= i < k ==> Truthy(args[i])
    ensures Guard(args)
  {
    GuardCases(args);
    FirstFalsyPrefix(args, k);
  }

  /** ToNumber, as applied by `*`, `-`, `/` and by the 2D context to its numeric arguments. */
  function ToNumber(v: JsValue): (r: JsValue)
    ensures r.Num? || r.NaN?
    ensures v.Num? ==> r == v
    ensures v == Undefined || v == NaN ==> r == NaN
    ensures v == Null ==> r == Num(0.0)
  {
    match v
    case Undefined => NaN
    case Null => Num(0.0)
    case Num(_) => v
    case NaN => NaN
    case Str(s) => if s == "" then Num(0.0) else NaN
  }

  /** Numeric `a + b`. */
  function Plus(a: JsValue, b: JsValue): (r: JsValue)
    ensures r.Num? <==> ToNumber(a).Num? && ToNumber(b).Num?
    ensures a.Num? && b.Num? ==> r == Num(a.n + b.n)
  {
    match (ToNumber(a), ToNumber(b))
    case (Num(x), Num(y)) => Num(x + y)
    case _ => NaN
  }

  /** `a - b`. */
  function Minus(a: JsValue, b: JsValue): (r: JsValue)
    ensures r.Num? <==> ToNumber(a).Num? && ToNumber(b).Num?
    ensures a.Num? && b.Num? ==> r == Num(a.n - b.n)
  {
    match (ToNumber(a), ToNumber(b))
    case (Num(x), Num(y)) => Num(x - y)
    case _ => NaN
  }

  /** Unary `-a` (also `a * -1`). */
  function Neg(a: JsValue): (r: JsValue)
    ensures r.Num? <==> ToNumber(a).Num?
    ensures a.Num? ==> r == Num(-a.n)
    ensures ToNumber(r) == r
  {
    match ToNumber(a)
    case Num(x) => Num(-x)
    case _ => NaN
  }

  /** `a / 2`. */
  function Half(a: JsValue): (r: JsValue)
    ensures r.Num? <==> ToNumber(a).Num?
    ensures a.Num? ==> r == Num(a.n / 2.0)
  {
    match ToNumber(a)
    case Num(x) => Num(x / 2.0)
    case _ => NaN
  }
}
