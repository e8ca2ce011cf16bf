/** The target-spec parser: it decides whether a `Cargo.toml` platform key is a `cfg()`
    expression or a full target triple, validates the expression's leaf predicates, and
    reports the three kinds of `ParseError`. The two foreign collaborators are parameters:
    the `cfg_expr` grammar (`CfgParser`) and the static table of known triples (`Triples`). */
module Parser {
  import opened Wrappers
  import opened CfgExpr

  /** The static record the triple table holds for one known target. Only the triple it is
      keyed by matters here; the remaining attributes are carried but not interpreted. */
  datatype TargetInfo = Info(triple: string, attributes: map<string, string>)

  /** The table of known triples, as a partial map from triple to record. */
  type Triples = map<string, TargetInfo>

  /** The foreign grammar: a `cfg()` string to an expression or a syntax error. */
  type CfgParser = string -> Result<Expression, CfgParseError>

  /** The table is keyed by each record's own triple. */
  predicate WellKeyed(table: Triples)
  {
    forall t :: t in table ==> table[t].triple == t
  }

  /** A parsed target: a known triple, or a validated `cfg()` expression. */
  datatype Target = TargetInfo(info: TargetInfo) | Spec(expr: Expression)

  /** The public wrapper around a parsed target. */
  datatype TargetSpec = TargetSpec(target: Target)

  datatype ParseError =
    | InvalidCfg(message: string)
    | UnknownTriple(triple: string)
    | UnknownPredicate(key: string)

  const CfgPrefix: string := "cfg("

  /** `s` begins with `prefix`, compared character by character (exact, case-sensitive). */
  predicate StartsWith(s: string, prefix: string)
  {
    |prefix| <= |s| && s[..|prefix|] == prefix
  }

  /** `s` ends with `suffix`. */
  predicate EndsWith(s: string, suffix: string)
  {
    |suffix| <= |s| && s[|s| - |suffix|..] == suffix
  }

  // ---------------------------------------------------------------------------------------
  // Validation of a parsed expression
  // ---------------------------------------------------------------------------------------

  /** No leaf in `ps` is an unrecognised key/value pair. */
  predicate NoKeyValue(ps: seq<Predicate>)
  {
    forall i :: 0 <= i < |ps| ==> !ps[i].KeyValue?
  }

  /** Position `i` holds the first key/value pair of `ps`. */
  predicate FirstKeyValueAt(ps: seq<Predicate>, i: int)
  {
    && 0 <= i < |ps|
    && ps[i].KeyValue?
    && forall j :: 0 <= j < i ==> !ps[j].KeyValue?
  }

  /** The key of the first key/value pair among the leaves `ps`, if there is one: the search
      that the validation loop performs, returning as soon as it meets such a leaf. */
  function FirstUnknownKey(ps: seq<Predicate>): (k: Option<string>)
    ensures k.None? <==> NoKeyValue(ps)
    ensures k.Some? ==> exists i :: FirstKeyValueAt(ps, i) && ps[i].key == k.value
  {
    if ps == [] then None
    else if ps[0].KeyValue? then Some(ps[0].key)
    else
      var rest := FirstUnknownKey(ps[1..]);
      assert forall i :: 1 <= i < |ps| ==> ps[i] == ps[1..][i - 1];
      if rest.Some? then
        var i :| FirstKeyValueAt(ps[1..], i) && ps[1..][i].key == rest.value;
        assert FirstKeyValueAt(ps, i + 1);
        rest
      else rest
  }

  /** Rejects the first leaf that is a key/value pair; accepts every other leaf (bare flags
      included) and then wraps the expression, unchanged, as a `Spec`. */
  function VerifyExpr(expr: Expression): (r: Result<Target, ParseError>)
    ensures r.Success? <==> NoKeyValue(Predicates(expr))
    ensures r.Success? ==> r.value == Spec(expr)
    ensures r.Failure? ==>
      && r.error.UnknownPredicate?
      && exists i :: FirstKeyValueAt(Predicates(expr), i) && Predicates(expr)[i].key == r.error.key
  {
    match FirstUnknownKey(Predicates(expr))
    case Some(key) => Failure(UnknownPredicate(key))
    case None => Success(Spec(expr))
  }

  // ---------------------------------------------------------------------------------------
  // Classification
  // ---------------------------------------------------------------------------------------

  /** Classifies `input`: a string that begins with `cfg(` is parsed and validated as an
      expression; any other string is looked up, whole, as a target triple. A syntax error of
      the grammar becomes `InvalidCfg` carrying the grammar's message unchanged. */
  function Parse(parseCfg: CfgParser, table: Triples, input: string): (r: Result<Target, ParseError>)
    ensures StartsWith(input, CfgPrefix) ==>
      && (r.Success? ==> r.value.Spec?)
      && (r.Failure? ==> r.error.InvalidCfg? || r.error.UnknownPredicate?)
    ensures StartsWith(input, CfgPrefix) && parseCfg(input).Failure? ==>
      r == Failure(InvalidCfg(parseCfg(input).error.message))
    ensures StartsWith(input, CfgPrefix) && parseCfg(input).Success? ==>
      var e := parseCfg(input).value;
      && (r.Success? <==> NoKeyValue(Predicates(e)))
      && (r.Success? ==> r.value == Spec(e))
      && (r.Failure? ==>
            && r.error.UnknownPredicate?
            && exists i :: FirstKeyValueAt(Predicates(e), i) && Predicates(e)[i].key == r.error.key)
    ensures !StartsWith(input, CfgPrefix) ==>
      && (r.Success? <==> input in table)
      && (r.Success? ==> r.value == TargetInfo(table[input]))
      && (r.Failure? ==> r.error == UnknownTriple(input))
  {
    if StartsWith(input, CfgPrefix) then
      match parseCfg(input)
      case Failure(err) => Failure(InvalidCfg(err.message))
      case Success(expr) => VerifyExpr(expr)
    else if input in table then
      Success(TargetInfo(table[input]))
    else
      Failure(UnknownTriple(input))
  }

  /** `TargetSpec::from_str`: succeeds exactly when `Parse` does, wrapping its target, and
      otherwise fails with the very same error. */
  function FromStr(parseCfg: CfgParser, table: Triples, input: string): (r: Result<TargetSpec, ParseError>)
    ensures r.Success? <==> Parse(parseCfg, table, input).Success?
    ensures r.Success? ==> r.value.target == Parse(parseCfg, table, input).value
    ensures r.Failure? ==> r.error == Parse(parseCfg, table, input).error
  {
    match Parse(parseCfg, table, input)
    case Success(target) => Success(TargetSpec(target))
    case Failure(err) => Failure(err)
  }

  // ---------------------------------------------------------------------------------------
  // Display
  // ---------------------------------------------------------------------------------------

  const InvalidCfgPrefix: string := "invalid cfg() expression: "
  const UnknownTriplePrefix: string := "unknown triple: "
  const UnknownPredicatePrefix: string := "cfg() expression has unknown predicate: "

  /** The string an error carries. */
  function Payload(e: ParseError): string
  {
    match e
    case InvalidCfg(m) => m
    case UnknownTriple(t) => t
    case UnknownPredicate(k) => k
  }

  /** The fixed text that introduces each kind of error. */
  function Prefix(e: ParseError): string
  {
    match e
    case InvalidCfg(_) => InvalidCfgPrefix
    case UnknownTriple(_) => UnknownTriplePrefix
    case UnknownPredicate(_) => UnknownPredicatePrefix
  }

  /** The human-readable rendering of an error: its kind's fixed text, then its payload. */
  function Display(e: ParseError): (s: string)
    ensures StartsWith(s, Prefix(e)) && EndsWith(s, Payload(e))
    ensures |s| == |Prefix(e)| + |Payload(e)|
  {
    match e
    case InvalidCfg(m) => InvalidCfgPrefix + m
    case UnknownTriple(t) => UnknownTriplePrefix + t
    case UnknownPredicate(k) => UnknownPredicatePrefix + k
  }

  /** Reads an error back from its rendering; the three fixed texts begin with three
      different letters, so at most one of them can introduce a given string. */
  function ErrorFromDisplay(s: string): Option<ParseError>
  {
    if StartsWith(s, InvalidCfgPrefix) then Some(InvalidCfg(s[|InvalidCfgPrefix|..]))
    else if StartsWith(s, UnknownTriplePrefix) then Some(UnknownTriple(s[|UnknownTriplePrefix|..]))
    else if StartsWith(s, UnknownPredicatePrefix) then Some(UnknownPredicate(s[|UnknownPredicatePrefix|..]))
    else None
  }
}
