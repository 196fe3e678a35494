/** An optional value, as Rust's `Option`, usable with `:-` like Rust's `?`. */
module Wrappers {
  datatype Option<+T> = None | Some(value: T) {
    predicate IsFailure() {
      None?
    }

    function PropagateFailure<U>(): Option<U>
      requires None?
    {
      None
    }

    function Extract(): T
      requires Some?
    {
      value
    }
  }
}

/**
 * The term vocabulary of the egg-math e-graph: the `FPConstant` and `Math`
 * tag enumerations (eggmath.rs), their canonical textual names, and the
 * expression trees that record the best known witness of an e-class.
 */
module MathLang {
  import opened Wrappers

  /** The named floating-point constants; opaque symbolic leaves. */
  datatype FPConstant =
    | True | False | E | Log2E | Log10E | Ln2 | Ln10
    | Pi | Pi2 | Pi4 | Pi1Alt | Pi2Alt | Sqrtpi2 | Sqrt2 | Sqrt1_2
    | Infinity | Nan

  /**
   * The operator tags. Three tags carry a payload: an exact rational constant
   * (BigRational in the source, `real` here), a named float constant, and a
   * variable (an interned identifier, a string here).
   */
  datatype Math =
    | Constant(c: real)
    // complex operators
    | Re | Im | Complex | Conj | Addc | Subc | Negc | Divc | Mulc
    // rounding, remainder and special functions
    | Erf | Erfc | Tgamma | Lgamma | Ceil | Floor | Fmod | Remainder
    | Fmax | Fmin | Fdim | Copysign | Trunc | Round | NearbyInt
    // arithmetic and elementary functions
    | Add | Sub | Mul | Div | Pow | Exp | Exp2 | Log | Sqrt | Cbrt | Fabs
    | Sin | Cos | Tan | Asin | Acos | Atan | Atan2
    | Sinh | Cosh | Tanh | Asinh | Acosh | Atanh
    | Fma | Log1p | Log10 | Log2 | Expm1 | Hypot
    // 16-bit posit arithmetic
    | PositAdd | PositSub | PositMul | PositDiv | RealToPosit
    | FPConstant(fp: FPConstant)
    | Variable(name: string)

  /** An expression tree: a tag applied to ordered child expressions. */
  datatype Expr = Node(op: Math, children: seq<Expr>)

  /** `Expr::unit`: a node with no children. */
  function Unit(op: Math): (e: Expr)
    ensures e.op == op && e.children == []
  {
    Node(op, [])
  }

  /** The tags that are leaves by definition: the three payload-carrying tags. */
  predicate IsLeafTag(op: Math) {
    op.Constant? || op.Variable? || op.FPConstant?
  }

  /** Leaf tags are applied to no children, at every node of the tree. */
  predicate WellFormed(e: Expr)
    decreases e
  {
    (IsLeafTag(e.op) ==> e.children == []) &&
    forall i :: 0 <= i < |e.children| ==> WellFormed(e.children[i])
  }

  /** The canonical name of each named float constant. */
  function FPConstantName(c: FPConstant): string {
    match c
    case True => "TRUE"
    case False => "FALSE"
    case E => "E"
    case Log2E => "LOG2E"
    case Log10E => "LOG10E"
    case Ln2 => "LN2"
    case Ln10 => "LN10"
    case Pi => "PI"
    case Pi2 => "PI_2"
    case Pi4 => "PI_4"
    case Pi1Alt => "1_PI"
    case Pi2Alt => "2_PI"
    case Sqrtpi2 => "2_SQRTPI"
    case Sqrt2 => "SQRT2"
    case Sqrt1_2 => "SQRT1_2"
    case Infinity => "INFINITY"
    case Nan => "NAN"
  }

  /**
   * The canonical name of a tag. Constants and variables are spelled by their
   * payload and have no fixed name; a named float constant is spelled by the
   * name of the constant it carries.
   */
  function TagName(op: Math): (r: Option<string>)
    ensures r.None? <==> op.Constant? || op.Variable?
    ensures op.FPConstant? ==> r == Some(FPConstantName(op.fp))
  {
    match op
    case Constant(_) => None
    case Variable(_) => None
    case FPConstant(c) => Some(FPConstantName(c))
    case Re => Some("re")
    case Im => Some("im")
    case Complex => Some("complex")
    case Conj => Some("conj")
    case Addc => Some("+.c")
    case Subc => Some("-.c")
    case Negc => Some("neg.c")
    case Divc => Some("/.c")
    case Mulc => Some("*.c")
    case Erf => Some("erf")
    case Erfc => Some("erfc")
    case Tgamma => Some("tgamma")
    case Lgamma => Some("lgamma")
    case Ceil => Some("ceil")
    case Floor => Some("floor")
    case Fmod => Some("fmod")
    case Remainder => Some("remainder")
    case Fmax => Some("fmax")
    case Fmin => Some("fmin")
    case Fdim => Some("fdim")
    case Copysign => Some("copysign")
    case Trunc => Some("trunc")
    case Round => Some("round")
    case NearbyInt => Some("nearbyint")
    case Add => Some("+")
    case Sub => Some("-")
    case Mul => Some("*")
    case Div => Some("/")
    case Pow => Some("pow")
    case Exp => Some("exp")
    case Exp2 => Some("exp2")
    case Log => Some("log")
    case Sqrt => Some("sqrt")
    case Cbrt => Some("cbrt")
    case Fabs => Some("fabs")
    case Sin => Some("sin")
    case Cos => Some("cos")
    case Tan => Some("tan")
    case Asin => Some("asin")
    case Acos => Some("acos")
    case Atan => Some("atan")
    case Atan2 => Some("atan2")
    case Sinh => Some("sinh")
    case Cosh => Some("cosh")
    case Tanh => Some("tanh")
    case Asinh => Some("asinh")
    case Acosh => Some("acosh")
    case Atanh => Some("atanh")
    case Fma => Some("fma")
    case Log1p => Some("log1p")
    case Log10 => Some("log10")
    case Log2 => Some("log2")
    case Expm1 => Some("expm1")
    case Hypot => Some("hypot")
    case PositAdd => Some("+.p16")
    case PositSub => Some("-.p16")
    case PositMul => Some("*.p16")
    case PositDiv => Some("/.p16")
    case RealToPosit => Some("real->posit")
  }

  /**
   * Name lookup: the tag a canonical name stands for, if any. It is written
   * independently of `TagName`, as a table from names to tags.
   */
  function TagOfName(s: string): Option<Math> {
    match s
    case "TRUE" => Some(FPConstant(True))
    case "FALSE" => Some(FPConstant(False))
    case "E" => Some(FPConstant(E))
    case "LOG2E" => Some(FPConstant(Log2E))
    case "LOG10E" => Some(FPConstant(Log10E))
    case "LN2" => Some(FPConstant(Ln2))
    case "LN10" => Some(FPConstant(Ln10))
    case "PI" => Some(FPConstant(Pi))
    case "PI_2" => Some(FPConstant(Pi2))
    case "PI_4" => Some(FPConstant(Pi4))
    case "1_PI" => Some(FPConstant(Pi1Alt))
    case "2_PI" => Some(FPConstant(Pi2Alt))
    case "2_SQRTPI" => Some(FPConstant(Sqrtpi2))
    case "SQRT2" => Some(FPConstant(Sqrt2))
    case "SQRT1_2" => Some(FPConstant(Sqrt1_2))
    case "INFINITY" => Some(FPConstant(Infinity))
    case "NAN" => Some(FPConstant(Nan))
    case "re" => Some(Re)
    case "im" => Some(Im)
    case "complex" => Some(Complex)
    case "conj" => Some(Conj)
    case "+.c" => Some(Addc)
    case "-.c" => Some(Subc)
    case "neg.c" => Some(Negc)
    case "/.c" => Some(Divc)
    case "*.c" => Some(Mulc)
    case "erf" => Some(Erf)
    case "erfc" => Some(Erfc)
    case "tgamma" => Some(Tgamma)
    case "lgamma" => Some(Lgamma)
    case "ceil" => Some(Ceil)
    case "floor" => Some(Floor)
    case "fmod" => Some(Fmod)
    case "remainder" => Some(Remainder)
    case "fmax" => Some(Fmax)
    case "fmin" => Some(Fmin)
    case "fdim" => Some(Fdim)
    case "copysign" => Some(Copysign)
    case "trunc" => Some(Trunc)
    case "round" => Some(Round)
    case "nearbyint" => Some(NearbyInt)
    case "+" => Some(Add)
    case "-" => Some(Sub)
    case "*" => Some(Mul)
    case "/" => Some(Div)
    case "pow" => Some(Pow)
    case "exp" => Some(Exp)
    case "exp2" => Some(Exp2)
    case "log" => Some(Log)
    case "sqrt" => Some(Sqrt)
    case "cbrt" => Some(Cbrt)
    case "fabs" => Some(Fabs)
    case "sin" => Some(Sin)
    case "cos" => Some(Cos)
    case "tan" => Some(Tan)
    case "asin" => Some(Asin)
    case "acos" => Some(Acos)
    case "atan" => Some(Atan)
    case "atan2" => Some(Atan2)
    case "sinh" => Some(Sinh)
    case "cosh" => Some(Cosh)
    case "tanh" => Some(Tanh)
    case "asinh" => Some(Asinh)
    case "acosh" => Some(Acosh)
    case "atanh" => Some(Atanh)
    case "fma" => Some(Fma)
    case "log1p" => Some(Log1p)
    case "log10" => Some(Log10)
    case "log2" => Some(Log2)
    case "expm1" => Some(Expm1)
    case "hypot" => Some(Hypot)
    case "+.p16" => Some(PositAdd)
    case "-.p16" => Some(PositSub)
    case "*.p16" => Some(PositMul)
    case "/.p16" => Some(PositDiv)
    case "real->posit" => Some(RealToPosit)
    case _ => None
  }


  /** Round trip of the complex-number tags. */
  lemma NameRoundTripComplex(op: Math)
    requires op in {Re, Im, Complex, Conj, Addc, Subc, Negc, Divc, Mulc}
    ensures TagOfName(TagName(op).value) == Some(op)
  {
  }

  /** Round trip of the rounding, remainder and special-function tags. */
  lemma NameRoundTripSpecial(op: Math)
    requires op in {Erf, Erfc, Tgamma, Lgamma, Ceil, Floor, Fmod, Remainder, Fmax, Fmin, Fdim, Copysign, Trunc, Round, NearbyInt}
    ensures TagOfName(TagName(op).value) == Some(op)
  {
  }

  /** Round trip of the arithmetic, power, exponential, logarithm and root tags. */
  lemma NameRoundTripArith(op: Math)
    requires op in {Add, Sub, Mul, Div, Pow, Exp, Exp2, Log, Sqrt, Cbrt, Fabs}
    ensures TagOfName(TagName(op).value) == Some(op)
  {
  }

  /** Round trip of the trigonometric and hyperbolic tags. */
  lemma NameRoundTripTrig(op: Math)
    requires op in {Sin, Cos, Tan, Asin, Acos, Atan, Atan2, Sinh, Cosh, Tanh, Asinh, Acosh, Atanh}
    ensures TagOfName(TagName(op).value) == Some(op)
  {
  }

  /** Round trip of the remaining elementary and the posit tags. */
  lemma NameRoundTripPosit(op: Math)
    requires op in {Fma, Log1p, Log10, Log2, Expm1, Hypot, PositAdd, PositSub, PositMul, PositDiv, RealToPosit}
    ensures TagOfName(TagName(op).value) == Some(op)
  {
  }

  /** Round trip of the named float constants. */
  lemma NameRoundTripFPConstant(c: FPConstant)
    ensures TagOfName(FPConstantName(c)) == Some(FPConstant(c))
  {
  }

  /** Every fixed-name tag is found again from its canonical name. */
  lemma TagNameRoundTrip(op: Math)
    requires TagName(op).Some?
    ensures TagOfName(TagName(op).value) == Some(op)
  {
    if op.FPConstant? {
      NameRoundTripFPConstant(op.fp);
    } else if op in {Re, Im, Complex, Conj, Addc, Subc, Negc, Divc, Mulc} {
      NameRoundTripComplex(op);
    } else if op in {Erf, Erfc, Tgamma, Lgamma, Ceil, Floor, Fmod, Remainder, Fmax, Fmin, Fdim, Copysign, Trunc, Round, NearbyInt} {
      NameRoundTripSpecial(op);
    } else if op in {Add, Sub, Mul, Div, Pow, Exp, Exp2, Log, Sqrt, Cbrt, Fabs} {
      NameRoundTripArith(op);
    } else if op in {Sin, Cos, Tan, Asin, Acos, Atan, Atan2, Sinh, Cosh, Tanh, Asinh, Acosh, Atanh} {
      NameRoundTripTrig(op);
    } else {
      NameRoundTripPosit(op);
    }
  }

  /**
   * Canonical names are pairwise distinct across all `Math` and `FPConstant`
   * tags, so that pattern text resolves every name to exactly one tag.
   */
  lemma TagNamesDistinct(a: Math, b: Math)
    requires TagName(a).Some?
    requires TagName(a) == TagName(b)
    ensures a == b
  {
    TagNameRoundTrip(a);
    TagNameRoundTrip(b);
  }

  /** The float-constant names alone are pairwise distinct. */
  lemma FPConstantNamesDistinct(c: FPConstant, d: FPConstant)
    requires FPConstantName(c) == FPConstantName(d)
    ensures c == d
  {
    TagNamesDistinct(FPConstant(c), FPConstant(d));
  }
}
