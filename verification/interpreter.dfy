/**
 * The tree-walking interpreter of the older front end
 * (src/lang/execution/interpreter.rs): runtime values, truthiness, the
 * unary and binary operator tables, expression evaluation with logical
 * short-circuit and the call arity check, and statement execution with the
 * stack of loop states that `break` and `continue` act on.
 *
 * The environment stack and the callables' own `call` are not part of this
 * model: the environment is a stack of name-to-value maps looked up from
 * the innermost frame out, and a call's result comes from the `Host`.
 */
module Interpreter {
  import opened Wrappers
  import opened BoxSyntax

  /**
   * `RV`. Numbers are reals; the source's IEEE `NaN` is the separate value
   * `NaN`, which the operator table also produces. A callable is known by
   * its name and its arity (`None` for a variadic native function).
   */
  datatype RV =
    | Str(s: string)
    | Num(n: real)
    | Bool(b: bool)
    | Nil
    | Undefined
    | NaN
    | Callable(arity: Option<nat>, name: string)

  /** `LoopState`: the state of an ongoing loop. */
  datatype LoopState = Go | Broken | Continue

  /**
   * `AsWritten` follows the source; `Corrected` makes `!` negate, makes
   * `!=` the negation of `==`, and makes a broken loop skip the rest of its
   * body as a continued one does.
   */
  datatype Mode = AsWritten | Corrected

  /** What is outside the model: a callable's result, and the text of a number. */
  datatype Host = Host(call: (string, seq<RV>) -> RV, numText: real -> string)

  /**
   * `runtime_err` followed by `exit(1)`, and the panics of `unwrap`. Running
   * out of fuel stands for a loop that does not stop.
   */
  datatype Failure =
    | NotCallable(line: nat)
    | ArityMismatch(expected: nat, given: nat, line: nat)
    | Panicked
    | OutOfFuel

  /**
   * The interpreter's state: the environment frames (the last one
   * innermost), the ongoing loops (the last one innermost) and the number
   * of runtime errors reported without exiting.
   */
  datatype Machine = Machine(env: seq<map<string, RV>>, loops: seq<LoopState>, errors: nat)

  datatype Outcome = Outcome(value: RV, m: Machine)

  // ---------------------------------------------------------------------------
  // Truthiness and the operator tables (interpreter.rs:12-138)

  /** `is_value_truthy`: zero, the empty string, `false`, nil, undefined and NaN are false. */
  predicate Truthy(v: RV)
    ensures !Truthy(v) <==> v in {RV.Num(0.0), RV.Str(""), RV.Bool(false), RV.Nil, RV.Undefined, NaN}
  {
    match v
    case Num(n) => n != 0.0
    case Str(s) => |s| > 0
    case Bool(b) => b
    case Nil | Undefined | NaN => false
    case Callable(_, _) => true
  }

  /** `bool2num!`. */
  function BoolToNum(b: bool): real {
    if b then 1.0 else 0.0
  }

  /** The text Rust's `to_string` gives a boolean. */
  function BoolText(b: bool): string {
    if b then "true" else "false"
  }

  predicate IsArithmetic(op: TokenType) {
    op == Plus || op == Minus || op == Star || op == Slash
  }

  predicate IsComparison(op: TokenType) {
    op == Less || op == LessEqual || op == Greater || op == GreaterEqual || op == EqualEqual || op == BangEqual
  }

  /** The kind of value an operator yields: comparisons give booleans, arithmetic numbers, strings or NaN. */
  predicate KindFits(op: TokenType, v: RV) {
    && (IsComparison(op) ==> v.Bool?)
    && (IsArithmetic(op) ==> v.Num? || v.Str? || v.NaN?)
    && (!IsComparison(op) && !IsArithmetic(op) ==> v == Undefined)
  }

  /** Lexicographic order on strings, as Rust orders `String`s. */
  predicate LexLess(a: string, b: string) {
    |b| > 0 && (|a| == 0 || a[0] < b[0] || (a[0] == b[0] && LexLess(a[1..], b[1..])))
  }

  /**
   * `eval_unary` on an evaluated operand: `-` negates numbers and turns
   * booleans into 0 and -1; every other operator token is `!`, which as
   * written yields the operand's truthiness itself.
   */
  function EvalUnary(mode: Mode, op: TokenType, v: RV): (r: RV)
    ensures op == Minus && v.Num? ==> r == RV.Num(-v.n)
    ensures op == Minus && v.Bool? ==> r == RV.Num(if v.b then -1.0 else 0.0)
    ensures op == Minus && !v.Num? && !v.Bool? ==> r == NaN
    ensures op != Minus ==> r.Bool? && (r.b <==> (Truthy(v) <==> mode == AsWritten))
  {
    if op == Minus then
      match v
      case Num(n) => RV.Num(-n)
      case Bool(b) => RV.Num(if b then -1.0 else 0.0)
      case _ => NaN
    else if mode == AsWritten then RV.Bool(Truthy(v))
    else RV.Bool(!Truthy(v))
  }

  /**
   * The first `match` of `eval_binary`: a number meets a boolean as 0 or
   * 1, and two booleans are numbers under arithmetic.
   */
  function Coerce(l: RV, op: TokenType, r: RV): (RV, RV) {
    match (l, r)
    case (Num(_), Bool(b)) => (l, RV.Num(BoolToNum(b)))
    case (Bool(b), Num(_)) => (RV.Num(BoolToNum(b)), r)
    case (Bool(a), Bool(b)) =>
      if IsArithmetic(op) then (RV.Num(BoolToNum(a)), RV.Num(BoolToNum(b))) else (l, r)
    case _ => (l, r)
  }

  /**
   * The last arms of the table: a comparison of values it does not cover
   * is false, arithmetic on them is NaN, and any other operator is
   * undefined. `Corrected` makes `!=` true there, the negation of `==`.
   */
  function Fallback(mode: Mode, op: TokenType): (v: RV)
    ensures KindFits(op, v)
  {
    if mode == Corrected && op == BangEqual then RV.Bool(true)
    else if IsComparison(op) then RV.Bool(false)
    else if IsArithmetic(op) then NaN
    else Undefined
  }

  /** The arms for two numbers. Division by zero is NaN. */
  function NumOp(mode: Mode, a: real, op: TokenType, b: real): (v: RV)
    ensures KindFits(op, v)
  {
    match op
    case Plus => RV.Num(a + b)
    case Minus => RV.Num(a - b)
    case Star => RV.Num(a * b)
    case Slash => if b == 0.0 then NaN else RV.Num(a / b)
    case Less => RV.Bool(a < b)
    case LessEqual => RV.Bool(a <= b)
    case Greater => RV.Bool(a > b)
    case GreaterEqual => RV.Bool(a >= b)
    case BangEqual => RV.Bool(a != b)
    case EqualEqual => RV.Bool(a == b)
    case _ => Fallback(mode, op)
  }

  /** The arms for two strings: concatenation and lexicographic comparison. */
  function StrOp(mode: Mode, a: string, op: TokenType, b: string): (v: RV)
    ensures KindFits(op, v)
  {
    match op
    case Plus => RV.Str(a + b)
    case Less => RV.Bool(LexLess(a, b))
    case LessEqual => RV.Bool(LexLess(a, b) || a == b)
    case Greater => RV.Bool(LexLess(b, a))
    case GreaterEqual => RV.Bool(LexLess(b, a) || a == b)
    case BangEqual => RV.Bool(a != b)
    case EqualEqual => RV.Bool(a == b)
    case _ => Fallback(mode, op)
  }

  /** The arms for two booleans, ordered `false < true`. */
  function BoolOp(mode: Mode, a: bool, op: TokenType, b: bool): (v: RV)
    ensures KindFits(op, v)
  {
    match op
    case Less => RV.Bool(!a && b)
    case LessEqual => RV.Bool(!a || b)
    case Greater => RV.Bool(a && !b)
    case GreaterEqual => RV.Bool(a || !b)
    case BangEqual => RV.Bool(a != b)
    case EqualEqual => RV.Bool(a == b)
    case _ => Fallback(mode, op)
  }

  /** The second `match` of `eval_binary`, on coerced operands, arm by arm in source order. */
  function Combine(mode: Mode, numText: real -> string, l: RV, op: TokenType, r: RV): (v: RV)
    ensures KindFits(op, v)
  {
    if l.Nil? && r.Nil? && op == EqualEqual then RV.Bool(true)
    else if l.Nil? && r.Nil? && op == BangEqual then RV.Bool(false)
    else if op == EqualEqual && (l.Nil? || r.Nil?) then RV.Bool(false)
    else if IsArithmetic(op) && (l.NaN? || r.NaN?) then NaN
    else
      match (l, r)
      case (Num(a), Num(b)) => NumOp(mode, a, op, b)
      case (Str(a), Str(b)) => StrOp(mode, a, op, b)
      case (Bool(a), Bool(b)) => BoolOp(mode, a, op, b)
      case (Str(s), Num(n)) => if op == Plus then RV.Str(s + numText(n)) else Fallback(mode, op)
      case (Num(n), Str(s)) => if op == Plus then RV.Str(numText(n) + s) else Fallback(mode, op)
      case (Str(s), Bool(b)) => if op == Plus then RV.Str(s + BoolText(b)) else Fallback(mode, op)
      case (Bool(b), Str(s)) => if op == Plus then RV.Str(BoolText(b) + s) else Fallback(mode, op)
      case _ => Fallback(mode, op)
  }

  /** `eval_binary` on evaluated operands. */
  function EvalBinary(mode: Mode, numText: real -> string, l: RV, op: TokenType, r: RV): (v: RV)
    ensures IsComparison(op) ==> v.Bool?
    ensures IsArithmetic(op) ==> v.Num? || v.Str? || v.NaN?
    ensures !IsComparison(op) && !IsArithmetic(op) ==> v == Undefined
  {
    var (a, b) := Coerce(l, op, r);
    var v := Combine(mode, numText, a, op, b);
    assert KindFits(op, v);
    v
  }

  // ---------------------------------------------------------------------------
  // Properties of the tables

  /** `a < b` is `b > a` for every pair of values. */
  lemma LessMirrorsGreater(mode: Mode, t: real -> string, a: RV, b: RV)
    ensures EvalBinary(mode, t, a, Less, b) == EvalBinary(mode, t, b, Greater, a)
  {
  }

  /** `a <= b` is `b >= a` for every pair of values. */
  lemma LessEqualMirrorsGreaterEqual(mode: Mode, t: real -> string, a: RV, b: RV)
    ensures EvalBinary(mode, t, a, LessEqual, b) == EvalBinary(mode, t, b, GreaterEqual, a)
  {
  }

  /** `==` is symmetric, and so is `!=`. */
  lemma EqualitySymmetric(mode: Mode, t: real -> string, a: RV, b: RV)
    ensures EvalBinary(mode, t, a, EqualEqual, b) == EvalBinary(mode, t, b, EqualEqual, a)
    ensures EvalBinary(mode, t, a, BangEqual, b) == EvalBinary(mode, t, b, BangEqual, a)
  {
    OperatorSymmetric(mode, t, a, EqualEqual, b);
    OperatorSymmetric(mode, t, a, BangEqual, b);
  }

  /** The table treats its operands alike under `==` and `!=`. */
  lemma OperatorSymmetric(mode: Mode, t: real -> string, a: RV, op: TokenType, b: RV)
    requires op == EqualEqual || op == BangEqual
    ensures EvalBinary(mode, t, a, op, b) == EvalBinary(mode, t, b, op, a)
  {
    if a.Num? && b.Num? {
      assert EvalBinary(mode, t, a, op, b) == NumOp(mode, a.n, op, b.n);
    }
  }

  /** A boolean meeting a number, under any operator, acts as 0 or 1. */
  lemma BooleanAsNumber(mode: Mode, t: real -> string, n: real, op: TokenType, b: bool)
    ensures EvalBinary(mode, t, RV.Num(n), op, RV.Bool(b)) == EvalBinary(mode, t, RV.Num(n), op, RV.Num(BoolToNum(b)))
    ensures EvalBinary(mode, t, RV.Bool(b), op, RV.Num(n)) == EvalBinary(mode, t, RV.Num(BoolToNum(b)), op, RV.Num(n))
  {
  }

  /** Arithmetic with NaN on either side is NaN. */
  lemma NaNAbsorbs(mode: Mode, t: real -> string, a: RV, op: TokenType)
    requires IsArithmetic(op)
    ensures EvalBinary(mode, t, a, op, NaN) == NaN && EvalBinary(mode, t, NaN, op, a) == NaN
  {
  }

  /** Nil equals only nil. */
  lemma NilEquality(mode: Mode, t: real -> string, a: RV)
    ensures EvalBinary(mode, t, RV.Nil, EqualEqual, a) == RV.Bool(a.Nil?)
    ensures EvalBinary(mode, t, RV.Nil, BangEqual, RV.Nil) == RV.Bool(false)
  {
  }

  /** In `Corrected` mode `!=` is exactly the negation of `==`. */
  lemma NotEqualNegatesEqual(t: real -> string, a: RV, b: RV)
    ensures EvalBinary(Corrected, t, a, EqualEqual, b).Bool?
    ensures EvalBinary(Corrected, t, a, BangEqual, b) == RV.Bool(!EvalBinary(Corrected, t, a, EqualEqual, b).b)
  {
  }

  /** As written, nil and 5 are neither equal nor unequal. */
  lemma NilNotEqualAsWritten(t: real -> string)
    ensures EvalBinary(AsWritten, t, RV.Nil, EqualEqual, RV.Num(5.0)) == RV.Bool(false)
    ensures EvalBinary(AsWritten, t, RV.Nil, BangEqual, RV.Num(5.0)) == RV.Bool(false)
  {
  }

  /** In `Corrected` mode `!` negates truthiness, so `!!v` is `v`'s truthiness. */
  lemma NotNotIsTruthiness(v: RV)
    ensures EvalUnary(Corrected, Bang, EvalUnary(Corrected, Bang, v)) == RV.Bool(Truthy(v))
  {
  }

  /** As written, `!true` is `true`. */
  lemma NotTrueAsWritten()
    ensures EvalUnary(AsWritten, Bang, RV.Bool(true)) == RV.Bool(true)
  {
  }

  /** Strings concatenate, and a number or boolean next to a string joins it as text. */
  lemma StringConcatenation(mode: Mode, t: real -> string, s: string, u: string, n: real, b: bool)
    ensures EvalBinary(mode, t, RV.Str(s), Plus, RV.Str(u)) == RV.Str(s + u)
    ensures EvalBinary(mode, t, RV.Str(s), Plus, RV.Num(n)) == RV.Str(s + t(n))
    ensures EvalBinary(mode, t, RV.Num(n), Plus, RV.Str(s)) == RV.Str(t(n) + s)
    ensures EvalBinary(mode, t, RV.Str(s), Plus, RV.Bool(b)) == RV.Str(s + BoolText(b))
    ensures EvalBinary(mode, t, RV.Bool(b), Plus, RV.Str(s)) == RV.Str(BoolText(b) + s)
  {
  }

  /** Two numbers add and subtract as reals. */
  lemma NumberSum(mode: Mode, t: real -> string, a: real, b: real)
    ensures EvalBinary(mode, t, RV.Num(a), Plus, RV.Num(b)) == RV.Num(a + b)
    ensures EvalBinary(mode, t, RV.Num(a), Minus, RV.Num(b)) == RV.Num(a - b)
  {
  }

  /** Two numbers multiply and divide as reals; division by zero is NaN. */
  lemma NumberProduct(mode: Mode, t: real -> string, a: real, b: real)
    ensures EvalBinary(mode, t, RV.Num(a), Star, RV.Num(b)) == RV.Num(a * b)
    ensures EvalBinary(mode, t, RV.Num(a), Slash, RV.Num(b)) == if b == 0.0 then NaN else RV.Num(a / b)
  {
  }

  /** Two numbers compare with `<` and `<=` as reals. */
  lemma NumberLess(mode: Mode, t: real -> string, a: real, b: real)
    ensures EvalBinary(mode, t, RV.Num(a), Less, RV.Num(b)) == RV.Bool(a < b)
    ensures EvalBinary(mode, t, RV.Num(a), LessEqual, RV.Num(b)) == RV.Bool(a <= b)
  {
  }

  /** Two numbers compare with `>` and `>=` as reals. */
  lemma NumberGreater(mode: Mode, t: real -> string, a: real, b: real)
    ensures EvalBinary(mode, t, RV.Num(a), Greater, RV.Num(b)) == RV.Bool(a > b)
    ensures EvalBinary(mode, t, RV.Num(a), GreaterEqual, RV.Num(b)) == RV.Bool(a >= b)
  {
  }

  /** Two numbers, two strings or two booleans are equal exactly when they are the same value. */
  lemma SameKindEquality(mode: Mode, t: real -> string, a: real, b: real, s: string, u: string, x: bool, y: bool)
    ensures EvalBinary(mode, t, RV.Num(a), EqualEqual, RV.Num(b)) == RV.Bool(a == b)
    ensures EvalBinary(mode, t, RV.Num(a), BangEqual, RV.Num(b)) == RV.Bool(a != b)
    ensures EvalBinary(mode, t, RV.Str(s), EqualEqual, RV.Str(u)) == RV.Bool(s == u)
    ensures EvalBinary(mode, t, RV.Str(s), BangEqual, RV.Str(u)) == RV.Bool(s != u)
    ensures EvalBinary(mode, t, RV.Bool(x), EqualEqual, RV.Bool(y)) == RV.Bool(x == y)
    ensures EvalBinary(mode, t, RV.Bool(x), BangEqual, RV.Bool(y)) == RV.Bool(x != y)
  {
  }

  /** Under `+ - * /` two booleans are the numbers 0 and 1. */
  lemma BooleanArithmetic(mode: Mode, t: real -> string, x: bool, op: TokenType, y: bool)
    requires IsArithmetic(op)
    ensures EvalBinary(mode, t, RV.Bool(x), op, RV.Bool(y)) == EvalBinary(mode, t, RV.Num(BoolToNum(x)), op, RV.Num(BoolToNum(y)))
  {
  }

  /** Compared with `<` or `<=`, two booleans are ordered `false < true`. */
  lemma BooleanLess(mode: Mode, t: real -> string, x: bool, y: bool)
    ensures EvalBinary(mode, t, RV.Bool(x), Less, RV.Bool(y)) == RV.Bool(!x && y)
    ensures EvalBinary(mode, t, RV.Bool(x), LessEqual, RV.Bool(y)) == RV.Bool(!x || y)
  {
  }

  /** Compared with `>` or `>=`, two booleans are ordered `false < true`. */
  lemma BooleanGreater(mode: Mode, t: real -> string, x: bool, y: bool)
    ensures EvalBinary(mode, t, RV.Bool(x), Greater, RV.Bool(y)) == RV.Bool(x && !y)
    ensures EvalBinary(mode, t, RV.Bool(x), GreaterEqual, RV.Bool(y)) == RV.Bool(x || !y)
  {
  }

  /**
   * The pairs of operands the table has arms for: two numbers, two
   * strings, two booleans, a number with a boolean, or two nils.
   */
  predicate Paired(a: RV, b: RV) {
    || (a.Num? && b.Num?) || (a.Str? && b.Str?) || (a.Bool? && b.Bool?)
    || (a.Num? && b.Bool?) || (a.Bool? && b.Num?)
    || (a.Nil? && b.Nil?)
  }

  /**
   * Operands without an arm of their own, outside `+` with a string: a
   * comparison is false (as written also `!=`, which `Corrected` makes
   * true), arithmetic is NaN, and any other operator is undefined.
   */
  lemma MismatchedFallback(mode: Mode, t: real -> string, a: RV, op: TokenType, b: RV)
    requires !Paired(a, b)
    requires !(op == Plus && (a.Str? || b.Str?))
    ensures IsComparison(op) && op != BangEqual ==> EvalBinary(mode, t, a, op, b) == RV.Bool(false)
    ensures EvalBinary(mode, t, a, BangEqual, b) == RV.Bool(mode == Corrected)
    ensures IsArithmetic(op) ==> EvalBinary(mode, t, a, op, b) == NaN
    ensures !IsComparison(op) && !IsArithmetic(op) ==> EvalBinary(mode, t, a, op, b) == Undefined
  {
    MismatchedArm(mode, t, a, op, b);
    MismatchedArm(mode, t, a, BangEqual, b);
  }

  /** Operands without an arm of their own reach the last arms of the table. */
  lemma MismatchedArm(mode: Mode, t: real -> string, a: RV, op: TokenType, b: RV)
    requires !Paired(a, b)
    requires !(op == Plus && (a.Str? || b.Str?))
    ensures EvalBinary(mode, t, a, op, b) == Fallback(mode, op)
  {
    assert Coerce(a, op, b) == (a, b);
    CombineMismatched(mode, t, a, op, b);
  }

  /** The second `match` sends operands without an arm of their own to its last arms. */
  lemma CombineMismatched(mode: Mode, t: real -> string, a: RV, op: TokenType, b: RV)
    requires !Paired(a, b)
    requires !(op == Plus && (a.Str? || b.Str?))
    ensures Combine(mode, t, a, op, b) == Fallback(mode, op)
  {
    if IsArithmetic(op) && (a.NaN? || b.NaN?) {
    } else if op == EqualEqual && (a.Nil? || b.Nil?) {
    } else if a.Str? || b.Str? {
      assert op != Plus;
    } else {
      assert !(a.Num? && b.Num?) && !(a.Bool? && b.Bool?);
    }
  }

  /** `LexLess` is a strict order: irreflexive and asymmetric. */
  lemma {:induction false} LexLessStrict(a: string, b: string)
    ensures !LexLess(a, a)
    ensures LexLess(a, b) ==> !LexLess(b, a)
    decreases |a|
  {
    if |a| > 0 && |b| > 0 {
      LexLessStrict(a[1..], b[1..]);
    }
    if |a| > 0 {
      LexLessStrict(a[1..], a[1..]);
    }
  }

  /** `LexLess` is total on distinct strings. */
  lemma {:induction false} LexLessTotal(a: string, b: string)
    requires a != b
    ensures LexLess(a, b) || LexLess(b, a)
    decreases |a|
  {
    if |a| > 0 && |b| > 0 && a[0] == b[0] {
      assert a == [a[0]] + a[1..] && b == [b[0]] + b[1..];
      LexLessTotal(a[1..], b[1..]);
    }
  }

  /** Strings are totally ordered: exactly one of `<`, `==`, `>` is true. */
  lemma StringTrichotomy(mode: Mode, t: real -> string, a: string, b: string)
    ensures EvalBinary(mode, t, RV.Str(a), Less, RV.Str(b)) == RV.Bool(a != b && !LexLess(b, a))
    ensures EvalBinary(mode, t, RV.Str(a), LessEqual, RV.Str(b)) == RV.Bool(!LexLess(b, a))
  {
    StringOrder(a, b);
    StringArms(mode, t, a, b);
  }

  /** `LexLess(a, b)` holds exactly when `a` differs from `b` and `b` is not below `a`. */
  lemma StringOrder(a: string, b: string)
    ensures LexLess(a, b) <==> a != b && !LexLess(b, a)
  {
    LexLessStrict(a, b);
    if a != b {
      LexLessTotal(a, b);
    }
  }

  /** Two strings go to the string arms of the table. */
  lemma StringArms(mode: Mode, t: real -> string, a: string, b: string)
    ensures EvalBinary(mode, t, RV.Str(a), Less, RV.Str(b)) == RV.Bool(LexLess(a, b))
    ensures EvalBinary(mode, t, RV.Str(a), LessEqual, RV.Str(b)) == RV.Bool(LexLess(a, b) || a == b)
  {
  }

  // ---------------------------------------------------------------------------
  // The environment

  /** `read`: the value of the innermost binding of `name`. */
  function Lookup(env: seq<map<string, RV>>, name: string): (r: Option<RV>)
    ensures r.Some? <==> exists i | 0 <= i < |env| :: name in env[i]
    ensures r.Some? ==> exists i | 0 <= i < |env| :: name in env[i] && env[i][name] == r.value
    decreases |env|
  {
    if |env| == 0 then None
    else if name in env[|env| - 1] then Some(env[|env| - 1][name])
    else
      var r := Lookup(env[..|env| - 1], name);
      assert forall i | 0 <= i < |env| - 1 :: env[..|env| - 1][i] == env[i];
      r
  }

  /** `assign`: replaces the innermost binding of `name`; fails when there is none. */
  function Assign(env: seq<map<string, RV>>, name: string, v: RV): (r: Option<seq<map<string, RV>>>)
    ensures r.Some? <==> Lookup(env, name).Some?
    ensures r.Some? ==> |r.value| == |env| && Lookup(r.value, name) == Some(v)
    decreases |env|
  {
    if |env| == 0 then None
    else if name in env[|env| - 1] then Some(env[|env| - 1 := env[|env| - 1][name := v]])
    else
      var rest :- Assign(env[..|env| - 1], name, v);
      assert (rest + [env[|env| - 1]])[..|env| - 1] == rest;
      Some(rest + [env[|env| - 1]])
  }

  /** `declare`: binds `name` in the innermost frame, shadowing any outer binding. */
  function Declare(env: seq<map<string, RV>>, name: string, v: RV): (r: seq<map<string, RV>>)
    requires |env| > 0
    ensures |r| == |env| && Lookup(r, name) == Some(v)
    ensures r[..|r| - 1] == env[..|env| - 1]
  {
    env[|env| - 1 := env[|env| - 1][name := v]]
  }

  // ---------------------------------------------------------------------------
  // Expressions (interpreter.rs:175-219)

  function LiteralRV(v: LiteralValue): RV {
    match v
    case Str(s) => RV.Str(s)
    case Num(n) => RV.Num(n)
    case Bool(b) => RV.Bool(b)
    case Nil => RV.Nil
  }

  /**
   * `visit_expr`. Operands are evaluated left to right; `and` and `or`
   * evaluate their right operand only when the left one does not decide,
   * and always yield a boolean. A call checks that the callee is callable
   * and, when its arity is fixed, that it matches the number of arguments,
   * before any argument is evaluated.
   */
  function Eval(h: Host, mode: Mode, m: Machine, e: Expr): (r: Result<Outcome, Failure>)
    ensures r.Ok? ==> |r.value.m.env| == |m.env| && r.value.m.loops == m.loops
    ensures r.Ok? && e.Logical? ==> r.value.value.Bool?
    ensures e.Variable? ==> (r.Ok? <==> e.name.lexeme.Some? && Lookup(m.env, e.name.lexeme.value).Some?)
    decreases e, 1
  {
    match e
    case Literal(v) => Ok(Outcome(LiteralRV(v), m))
    case Grouping(x) => Eval(h, mode, m, x)
    case Unary(op, x) =>
      var o :- Eval(h, mode, m, x);
      Ok(Outcome(EvalUnary(mode, op.tokType, o.value), o.m))
    case Binary(op, l, r) =>
      var a :- Eval(h, mode, m, l);
      var b :- Eval(h, mode, a.m, r);
      Ok(Outcome(EvalBinary(mode, h.numText, a.value, op.tokType, b.value), b.m))
    case Variable(name) =>
      if name.lexeme.None? then Err(Panicked)
      else
        var v := Lookup(m.env, name.lexeme.value);
        if v.None? then Err(Panicked) else Ok(Outcome(v.value, m))
    case Assignment(name, x) =>
      var o :- Eval(h, mode, m, x);
      if name.lexeme.None? then Err(Panicked)
      else
        var env := Assign(o.m.env, name.lexeme.value, o.value);
        if env.None? then Ok(Outcome(o.value, o.m.(errors := o.m.errors + 1)))
        else Ok(Outcome(o.value, o.m.(env := env.value)))
    case Logical(l, op, r) =>
      var a :- Eval(h, mode, m, l);
      var isTrue := Truthy(a.value);
      if (op.tokType == Or && isTrue) || (op.tokType == And && !isTrue) then Ok(Outcome(RV.Bool(isTrue), a.m))
      else
        var b :- Eval(h, mode, a.m, r);
        Ok(Outcome(RV.Bool(Truthy(b.value)), b.m))
    case Call(callee, paren, args) =>
      var c :- Eval(h, mode, m, callee);
      var f :- CheckCall(c.value, |args|, paren.line);
      var vs :- EvalArgs(h, mode, c.m, e, 0, []);
      Ok(Outcome(h.call(f.name, vs.values), vs.m))
  }

  /**
   * A call whose callee is not callable, or has the wrong arity, fails
   * with that error before any argument is evaluated: the arguments'
   * failures and effects never show.
   */
  lemma ArityBeforeArguments(h: Host, mode: Mode, m: Machine, e: Expr)
    requires e.Call?
    requires Eval(h, mode, m, e.callee).Ok?
    requires CheckCall(Eval(h, mode, m, e.callee).value.value, |e.args|, e.paren.line).Err?
    ensures Eval(h, mode, m, e) == Err(CheckCall(Eval(h, mode, m, e.callee).value.value, |e.args|, e.paren.line).error)
  {
  }

  /** The callee check of a call: it must be callable, with a matching arity if it has one. */
  function CheckCall(callee: RV, given: nat, line: nat): (r: Result<RV, Failure>)
    ensures r.Ok? <==> callee.Callable? && (callee.arity.None? || callee.arity.value == given)
    ensures r.Ok? ==> r.value == callee
    ensures !callee.Callable? ==> r == Err(NotCallable(line))
    ensures callee.Callable? && callee.arity.Some? && callee.arity.value != given ==>
      r == Err(ArityMismatch(callee.arity.value, given, line))
  {
    match callee
    case Callable(arity, _) =>
      if arity.Some? && arity.value != given then Err(ArityMismatch(arity.value, given, line))
      else Ok(callee)
    case _ => Err(NotCallable(line))
  }

  datatype Values = Values(values: seq<RV>, m: Machine)

  /** The arguments of `call`, from index `i` on, evaluated left to right. */
  function EvalArgs(h: Host, mode: Mode, m: Machine, call: Expr, i: nat, acc: seq<RV>): (r: Result<Values, Failure>)
    requires call.Call? && i <= |call.args| && |acc| == i
    ensures r.Ok? ==> |r.value.values| == |call.args| && r.value.values[..i] == acc
    ensures r.Ok? ==> |r.value.m.env| == |m.env| && r.value.m.loops == m.loops
    decreases call, 0, |call.args| - i
  {
    if i == |call.args| then Ok(Values(acc, m))
    else
      var o :- Eval(h, mode, m, call.args[i]);
      var rest :- EvalArgs(h, mode, o.m, call, i + 1, acc + [o.value]);
      assert rest.values[..i] == (acc + [o.value])[..i];
      Ok(rest)
  }

  /** `or` with a truthy left operand, and `and` with a falsy one, never evaluate the right operand. */
  lemma ShortCircuit(h: Host, mode: Mode, m: Machine, l: Expr, op: Token, r: Expr)
    requires op.tokType == Or || op.tokType == And
    requires Eval(h, mode, m, l).Ok?
    requires (op.tokType == Or) == Truthy(Eval(h, mode, m, l).value.value)
    ensures Eval(h, mode, m, Logical(l, op, r)) == Ok(Outcome(RV.Bool(op.tokType == Or), Eval(h, mode, m, l).value.m))
  {
  }

  /** Otherwise the result is the truthiness of the right operand. */
  lemma LogicalOtherwise(h: Host, mode: Mode, m: Machine, l: Expr, op: Token, r: Expr)
    requires op.tokType == Or || op.tokType == And
    requires Eval(h, mode, m, l).Ok?
    requires (op.tokType == Or) != Truthy(Eval(h, mode, m, l).value.value)
    requires Eval(h, mode, Eval(h, mode, m, l).value.m, r).Ok?
    ensures Eval(h, mode, m, Logical(l, op, r)).Ok?
    ensures Eval(h, mode, m, Logical(l, op, r)).value.value ==
      RV.Bool(Truthy(Eval(h, mode, Eval(h, mode, m, l).value.m, r).value.value))
  {
  }

  // ---------------------------------------------------------------------------
  // Statements (interpreter.rs:141-170, 221-280)

  /** The innermost loop's state, if a loop is running. */
  function Top(loops: seq<LoopState>): Option<LoopState> {
    if |loops| == 0 then None else Some(loops[|loops| - 1])
  }

  /**
   * The guard at the start of `visit_stmt`: inside a continued loop every
   * statement is skipped. `Corrected` skips inside a broken loop too.
   */
  predicate Skips(mode: Mode, loops: seq<LoopState>) {
    Top(loops) == Some(LoopState.Continue) || (mode == Corrected && Top(loops) == Some(Broken))
  }

  /**
   * `set_loop_state(to, None)` for `break` and `continue`: the innermost
   * loop takes the new state; outside any loop it reports a runtime error.
   */
  function Jump(m: Machine, to: LoopState): (r: Machine)
    ensures r.env == m.env && |r.loops| == |m.loops|
    ensures |m.loops| > 0 ==> r.loops == m.loops[..|m.loops| - 1] + [to] && r.errors == m.errors
    ensures |m.loops| == 0 ==> r.loops == [] && r.errors == m.errors + 1
  {
    if |m.loops| == 0 then m.(errors := m.errors + 1)
    else m.(loops := m.loops[|m.loops| - 1 := to])
  }

  /** `set_loop_state(Go, Some(Continue))`: a continued loop goes on with its next iteration. */
  function Resume(loops: seq<LoopState>): (r: seq<LoopState>)
    requires |loops| > 0
    ensures |r| == |loops| && r[..|r| - 1] == loops[..|loops| - 1]
    ensures r[|r| - 1] == if loops[|loops| - 1] == LoopState.Continue then Go else loops[|loops| - 1]
  {
    if loops[|loops| - 1] == LoopState.Continue then loops[|loops| - 1 := Go] else loops
  }

  /** A statement in a continued loop, or in `Corrected` mode a broken one, does nothing. */
  lemma {:induction false} SkippedStatements(h: Host, mode: Mode, m: Machine, stmts: seq<Stmt>, fuel: nat)
    requires |m.env| > 0 && Skips(mode, m.loops)
    ensures ExecAll(h, mode, m, stmts, fuel) == Ok(m)
    decreases |stmts|
  {
    if stmts != [] {
      SkippedStatements(h, mode, m, stmts[1..], fuel);
    }
  }

  /** `continue` skips the rest of the block it is in. */
  lemma ContinueSkipsRest(h: Host, mode: Mode, m: Machine, t: Token, rest: seq<Stmt>, fuel: nat)
    requires |m.env| > 0 && Top(m.loops) == Some(Go) && 0 < fuel
    ensures ExecAll(h, mode, m, [Stmt.Continue(t)] + rest, fuel) == Ok(Jump(m, LoopState.Continue))
  {
    assert ([Stmt.Continue(t)] + rest)[1..] == rest;
    SkippedStatements(h, mode, Jump(m, LoopState.Continue), rest, fuel);
  }

  /** In `Corrected` mode `break` skips the rest of the block it is in. */
  lemma BreakSkipsRest(h: Host, m: Machine, t: Token, rest: seq<Stmt>, fuel: nat)
    requires |m.env| > 0 && Top(m.loops) == Some(Go) && 0 < fuel
    ensures ExecAll(h, Corrected, m, [Stmt.Break(t)] + rest, fuel) == Ok(Jump(m, Broken))
  {
    assert ([Stmt.Break(t)] + rest)[1..] == rest;
    SkippedStatements(h, Corrected, Jump(m, Broken), rest, fuel);
  }

  /** As written, the statements after `break` still run, in the broken loop. */
  lemma BreakRunsRestAsWritten(h: Host, m: Machine, t: Token, rest: seq<Stmt>, fuel: nat)
    requires |m.env| > 0 && Top(m.loops) == Some(Go) && 0 < fuel
    ensures ExecAll(h, AsWritten, m, [Stmt.Break(t)] + rest, fuel) == ExecAll(h, AsWritten, Jump(m, Broken), rest, fuel)
  {
    assert ([Stmt.Break(t)] + rest)[1..] == rest;
  }

  /** The loop body `{ break; q = 1; }`. */
  function BreakThenAssign(t: Token): seq<Stmt> {
    [Stmt.Break(t), Expression(Assignment(Token(Identifier, Some("q"), None, 1), Literal(LiteralValue.Num(1.0))))]
  }

  /** An instance: as written, the assignment after `break` runs. */
  lemma AssignmentAfterBreakAsWritten(h: Host, t: Token)
    ensures ExecAll(h, AsWritten, Machine([map["q" := RV.Num(0.0)]], [Go], 0), BreakThenAssign(t), 1)
      == Ok(Machine([map["q" := RV.Num(1.0)]], [Broken], 0))
  {
    var m := Machine([map["q" := RV.Num(0.0)]], [Go], 0);
    var assign := BreakThenAssign(t)[1];
    assert BreakThenAssign(t) == [Stmt.Break(t)] + [assign];
    BreakRunsRestAsWritten(h, m, t, [assign], 1);
    assert Jump(m, Broken) == Machine([map["q" := RV.Num(0.0)]], [Broken], 0);
    AssignAfterBreak(h, assign);
    assert [assign][1..] == [];
  }

  /** The assignment `q = 1;` runs in a loop whose state is already `Broken`. */
  lemma AssignAfterBreak(h: Host, assign: Stmt)
    requires assign == Expression(Assignment(Token(Identifier, Some("q"), None, 1), Literal(LiteralValue.Num(1.0))))
    ensures Exec(h, AsWritten, Machine([map["q" := RV.Num(0.0)]], [Broken], 0), assign, 1)
      == Ok(Machine([map["q" := RV.Num(1.0)]], [Broken], 0))
  {
    var env := [map["q" := RV.Num(0.0)]];
    assert map["q" := RV.Num(0.0)]["q" := RV.Num(1.0)] == map["q" := RV.Num(1.0)];
    assert env[0 := env[0]["q" := RV.Num(1.0)]] == [map["q" := RV.Num(1.0)]];
    assert Assign(env, "q", RV.Num(1.0)) == Some([map["q" := RV.Num(1.0)]]);
  }

  /** The same instance in `Corrected` mode: the assignment is skipped. */
  lemma AssignmentAfterBreakCorrected(h: Host, t: Token)
    ensures ExecAll(h, Corrected, Machine([map["q" := RV.Num(0.0)]], [Go], 0), BreakThenAssign(t), 1)
      == Ok(Machine([map["q" := RV.Num(0.0)]], [Broken], 0))
  {
    var m := Machine([map["q" := RV.Num(0.0)]], [Go], 0);
    assert BreakThenAssign(t) == [Stmt.Break(t)] + [BreakThenAssign(t)[1]];
    BreakSkipsRest(h, m, t, [BreakThenAssign(t)[1]], 1);
    assert Jump(m, Broken) == Machine([map["q" := RV.Num(0.0)]], [Broken], 0);
  }

  /** The state a statement leaves behind keeps the shape of the stacks. */
  predicate Balanced(m: Machine, r: Result<Machine, Failure>) {
    r.Ok? ==> |r.value.env| == |m.env| && |r.value.loops| == |m.loops|
  }

  /**
   * `visit_stmt`. A skipped statement changes nothing. Blocks push and pop
   * an environment frame, loops push and pop a loop state, and each step
   * spends one unit of `fuel`.
   */
  function Exec(h: Host, mode: Mode, m: Machine, s: Stmt, fuel: nat): (r: Result<Machine, Failure>)
    requires |m.env| > 0
    ensures Balanced(m, r)
    ensures Skips(mode, m.loops) ==> r == Ok(m)
    decreases fuel, 0
  {
    if Skips(mode, m.loops) then Ok(m)
    else if fuel == 0 then Err(OutOfFuel)
    else
      match s
      case Expression(e) =>
        var o :- Eval(h, mode, m, e);
        Ok(o.m)
      case Declaration(name, init) =>
        if name.lexeme.None? then Ok(m.(errors := m.errors + 1))
        else
          var o :- Eval(h, mode, m, init);
          Ok(o.m.(env := Declare(o.m.env, name.lexeme.value, o.value)))
      case Block(stmts) =>
        var inner :- ExecAll(h, mode, m.(env := m.env + [map[]]), stmts, fuel - 1);
        Ok(inner.(env := inner.env[..|inner.env| - 1]))
      case If(c, t, e) =>
        var o :- Eval(h, mode, m, c);
        if Truthy(o.value) then Exec(h, mode, o.m, t, fuel - 1)
        else if e.Some? then Exec(h, mode, o.m, e.value, fuel - 1)
        else Ok(o.m)
      case Loop(c, body, post) =>
        var after :- RunLoop(h, mode, m.(loops := m.loops + [Go]), c, body, post, fuel - 1);
        Ok(after.(loops := after.loops[..|after.loops| - 1]))
      case Return(_, _) => Ok(m)
      case Break(_) => Ok(Jump(m, Broken))
      case Continue(_) => Ok(Jump(m, LoopState.Continue))
      case Function(name, params, _) =>
        if name.lexeme.None? || exists i | 0 <= i < |params| :: params[i].lexeme.None? then Err(Panicked)
        else Ok(m.(env := Declare(m.env, name.lexeme.value, Callable(Some(|params|), name.lexeme.value))))
  }

  /** The statements of a block, in order. */
  function ExecAll(h: Host, mode: Mode, m: Machine, stmts: seq<Stmt>, fuel: nat): (r: Result<Machine, Failure>)
    requires |m.env| > 0
    ensures Balanced(m, r)
    ensures stmts == [] ==> r == Ok(m)
    decreases fuel, 1, |stmts|
  {
    if stmts == [] then Ok(m)
    else
      var m' :- Exec(h, mode, m, stmts[0], fuel);
      ExecAll(h, mode, m', stmts[1..], fuel)
  }

  /**
   * The `while` of the `Loop` case: it stops once the innermost loop is
   * broken or the condition is falsy. After the body a continued loop goes
   * back to `Go`, then the post statement runs.
   */
  function RunLoop(h: Host, mode: Mode, m: Machine, c: Option<Expr>, body: Stmt, post: Option<Stmt>, fuel: nat): (r: Result<Machine, Failure>)
    requires |m.env| > 0 && |m.loops| > 0
    ensures Balanced(m, r)
    ensures m.loops[|m.loops| - 1] == Broken ==> r == Ok(m)
    decreases fuel, 0
  {
    if m.loops[|m.loops| - 1] == Broken then Ok(m)
    else
      var test :- if c.None? then Ok(Outcome(RV.Bool(true), m)) else Eval(h, mode, m, c.value);
      if !Truthy(test.value) then Ok(test.m)
      else if fuel == 0 then Err(OutOfFuel)
      else
        var m1 :- Exec(h, mode, test.m, body, fuel - 1);
        var m2 := m1.(loops := Resume(m1.loops));
        var m3 :- if post.Some? then Exec(h, mode, m2, post.value, fuel - 1) else Ok(m2);
        RunLoop(h, mode, m3, c, body, post, fuel - 1)
  }
}
