/** The part of the foreign `cfg_expr` crate that the target-spec parser consumes: the leaf
    predicates its grammar produces, the expression tree they sit in, and the flat,
    left-to-right sequence of leaves that `Expression::predicates()` exposes.
    The grammar itself (`Expression::parse`) is not part of this model; the parser receives it
    as a parameter. */
module CfgExpr {

  /** A predicate on one attribute of the target platform. The grammar produces one of these
      for every key it recognises (`target_arch`, `target_os`, `target_family`, ...) and for
      the bare family flags `unix` and `windows`. */
  datatype TargetPredicate =
    | Arch(arch: string)
    | Endian(endian: string)
    | Env(env: string)
    | Family(family: string)
    | Os(os: string)
    | PointerWidth(width: nat)
    | Vendor(vendor: string)

  /** A leaf of a `cfg()` expression. `KeyValue` is what the grammar leaves behind for a
      `key = "value"` pair whose key it does not recognise; `Flag` is any other bare name. */
  datatype Predicate =
    | Target(target: TargetPredicate)
    | TargetFeature(feature: string)
    | Test
    | DebugAssertions
    | ProcMacro
    | Feature(name: string)
    | Flag(flag: string)
    | KeyValue(key: string, val: string)

  /** A parsed `cfg()` expression: `all(...)`, `any(...)` and `not(...)` over leaf predicates. */
  datatype Expression =
    | Leaf(pred: Predicate)
    | All(children: seq<Expression>)
    | Any(children: seq<Expression>)
    | Not(operand: Expression)

  /** A syntax error reported by the grammar, reduced to its rendered message. */
  datatype CfgParseError = CfgParseError(message: string)

  /** The leaf predicates of `e`, in the order in which they are written. */
  function Predicates(e: Expression): seq<Predicate>
    decreases e
  {
    match e
    case Leaf(p) => [p]
    case All(cs) => PredicatesOf(cs)
    case Any(cs) => PredicatesOf(cs)
    case Not(x) => Predicates(x)
  }

  /** The leaf predicates of the sibling expressions `cs`, left to right. */
  function PredicatesOf(cs: seq<Expression>): seq<Predicate>
    decreases cs
  {
    if cs == [] then [] else Predicates(cs[0]) + PredicatesOf(cs[1..])
  }
}
