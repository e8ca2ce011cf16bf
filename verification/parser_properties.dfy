/** Properties of the target-spec parser: which kind of outcome each kind of input yields,
    what validation accepts and rejects, how validation composes over `all`, `any` and
    `not`, the scenarios of the parser's own tests, and the unambiguity of error messages. */
module ParserProperties {
  import opened Wrappers
  import opened CfgExpr
  import opened Parser

  // ---------------------------------------------------------------------------------------
  // Classification by prefix
  // ---------------------------------------------------------------------------------------

  /** An input that begins with `cfg(` never names a triple: it yields a `Spec`, or fails
      with `InvalidCfg` or `UnknownPredicate`, never with `UnknownTriple`. */
  lemma CfgInputNeverTriple(parseCfg: CfgParser, table: Triples, input: string)
    requires StartsWith(input, CfgPrefix)
    ensures var r := Parse(parseCfg, table, input);
      && !(r.Success? && r.value.TargetInfo?)
      && !(r.Failure? && r.error.UnknownTriple?)
  {
  }

  /** Any other input never yields a `Spec`: it yields the record whose triple is the input
      itself, or exactly `UnknownTriple(input)`. */
  lemma TripleInputNeverSpec(parseCfg: CfgParser, table: Triples, input: string)
    requires WellKeyed(table)
    requires !StartsWith(input, CfgPrefix)
    ensures var r := Parse(parseCfg, table, input);
      || (r.Success? && r.value.TargetInfo? && r.value.info.triple == input)
      || r == Failure(UnknownTriple(input))
    ensures Parse(parseCfg, table, input).Success? <==> input in table
  {
  }

  /** The prefix test is exact and case-sensitive: neither `Cfg(unix)` nor `cfg (unix)` is
      parsed as an expression; both are looked up as triples. */
  lemma PrefixIsCaseSensitive(parseCfg: CfgParser, table: Triples)
    ensures Parse(parseCfg, table, "Cfg(unix)") ==
      if "Cfg(unix)" in table then Success(TargetInfo(table["Cfg(unix)"]))
      else Failure(UnknownTriple("Cfg(unix)"))
    ensures Parse(parseCfg, table, "cfg (unix)") ==
      if "cfg (unix)" in table then Success(TargetInfo(table["cfg (unix)"]))
      else Failure(UnknownTriple("cfg (unix)"))
  {
    assert "Cfg(unix)"[0] != CfgPrefix[0];
    assert "cfg (unix)"[3] != CfgPrefix[3];
  }

  /** A syntax error of the grammar becomes `InvalidCfg` with the grammar's message, and no
      target is produced. */
  lemma SyntaxErrorIsInvalidCfg(parseCfg: CfgParser, table: Triples, input: string)
    requires StartsWith(input, CfgPrefix)
    requires parseCfg(input).Failure?
    ensures Parse(parseCfg, table, input) == Failure(InvalidCfg(parseCfg(input).error.message))
  {
  }

  /** What a parsed target may be: a record found in the table under its own triple, or an
      expression in which no leaf is an unrecognised key/value pair. */
  predicate ValidTarget(table: Triples, t: Target)
  {
    match t
    case TargetInfo(info) => info.triple in table && table[info.triple] == info
    case Spec(expr) => NoKeyValue(Predicates(expr))
  }

  /** Every target that parsing produces is valid: validation happens once, at parse time. */
  lemma ParseYieldsValidTarget(parseCfg: CfgParser, table: Triples, input: string)
    requires WellKeyed(table)
    requires Parse(parseCfg, table, input).Success?
    ensures ValidTarget(table, Parse(parseCfg, table, input).value)
    ensures FromStr(parseCfg, table, input).Success?
    ensures ValidTarget(table, FromStr(parseCfg, table, input).value.target)
  {
  }

  // ---------------------------------------------------------------------------------------
  // Validation
  // ---------------------------------------------------------------------------------------

  /** The first key/value pair of a sequence of leaves is unique, so the key that validation
      reports is determined by the leaves alone. */
  lemma RejectedKeyIsFirst(expr: Expression, i: int)
    requires FirstKeyValueAt(Predicates(expr), i)
    ensures VerifyExpr(expr) == Failure(UnknownPredicate(Predicates(expr)[i].key))
  {
  }

  /** Bare flags, known or not, and typed target predicates are accepted, unchanged. */
  lemma FlagsAndTargetsAccepted(name: string, tp: TargetPredicate)
    ensures VerifyExpr(Leaf(Flag(name))) == Success(Spec(Leaf(Flag(name))))
    ensures VerifyExpr(Leaf(Target(tp))) == Success(Spec(Leaf(Target(tp))))
  {
  }

  /** Searching a concatenation finds the first sequence's key if it has one, and otherwise
      the second's. */
  lemma {:induction false} FirstUnknownKeyAppend(ps: seq<Predicate>, qs: seq<Predicate>)
    ensures FirstUnknownKey(ps + qs) ==
      if FirstUnknownKey(ps).Some? then FirstUnknownKey(ps) else FirstUnknownKey(qs)
  {
    if ps != [] {
      assert (ps + qs)[0] == ps[0];
      assert (ps + qs)[1..] == ps[1..] + qs;
      FirstUnknownKeyAppend(ps[1..], qs);
    } else {
      assert ps + qs == qs;
    }
  }

  /** The leaves of a concatenation of siblings are the concatenation of their leaves. */
  lemma {:induction false} PredicatesOfAppend(cs: seq<Expression>, ds: seq<Expression>)
    ensures PredicatesOf(cs + ds) == PredicatesOf(cs) + PredicatesOf(ds)
  {
    if cs != [] {
      assert (cs + ds)[0] == cs[0];
      assert (cs + ds)[1..] == cs[1..] + ds;
      PredicatesOfAppend(cs[1..], ds);
    } else {
      assert cs + ds == ds;
    }
  }

  /** Validating `all(cs)` fails exactly when validating some child fails, and then with the
      error of the first child that fails. */
  lemma {:induction false} VerifyAllIsFirstFailingChild(cs: seq<Expression>)
    ensures VerifyExpr(All(cs)).Success? <==>
      forall i :: 0 <= i < |cs| ==> VerifyExpr(cs[i]).Success?
    ensures VerifyExpr(All(cs)).Failure? ==>
      exists i :: && 0 <= i < |cs|
                  && VerifyExpr(cs[i]) == VerifyExpr(All(cs))
                  && forall j :: 0 <= j < i ==> VerifyExpr(cs[j]).Success?
  {
    if cs != [] {
      assert Predicates(All(cs)) == Predicates(cs[0]) + PredicatesOf(cs[1..]);
      assert PredicatesOf(cs[1..]) == Predicates(All(cs[1..]));
      FirstUnknownKeyAppend(Predicates(cs[0]), PredicatesOf(cs[1..]));
      VerifyAllIsFirstFailingChild(cs[1..]);
      assert forall i :: 1 <= i < |cs| ==> cs[i] == cs[1..][i - 1];
      if VerifyExpr(cs[0]).Failure? {
        assert VerifyExpr(cs[0]) == VerifyExpr(All(cs));
      } else if VerifyExpr(All(cs[1..])).Failure? {
        var i :| && 0 <= i < |cs[1..]|
                 && VerifyExpr(cs[1..][i]) == VerifyExpr(All(cs[1..]))
                 && forall j :: 0 <= j < i ==> VerifyExpr(cs[1..][j]).Success?;
        assert VerifyExpr(cs[i + 1]) == VerifyExpr(All(cs));
      }
    } else {
      assert Predicates(All(cs)) == [];
    }
  }

  /** Validation looks only at the leaves: `any(cs)` and `not(all(cs))` are judged exactly as
      `all(cs)` is, apart from the expression a success wraps. */
  lemma ValidationIgnoresConnectives(cs: seq<Expression>)
    ensures VerifyExpr(Any(cs)).Success? <==> VerifyExpr(All(cs)).Success?
    ensures VerifyExpr(Not(All(cs))).Success? <==> VerifyExpr(All(cs)).Success?
    ensures VerifyExpr(All(cs)).Failure? ==>
      && VerifyExpr(Any(cs)) == VerifyExpr(All(cs))
      && VerifyExpr(Not(All(cs))) == VerifyExpr(All(cs))
  {
  }

  /** Adding a bare flag as a further argument of `all(...)` never changes the verdict:
      unknown flags are accepted here and left for evaluation to treat as false. */
  lemma AddingFlagKeepsVerdict(cs: seq<Expression>, name: string)
    ensures VerifyExpr(All(cs + [Leaf(Flag(name))])).Success? <==> VerifyExpr(All(cs)).Success?
    ensures VerifyExpr(All(cs)).Failure? ==>
      VerifyExpr(All(cs + [Leaf(Flag(name))])) == VerifyExpr(All(cs))
  {
    PredicatesOfAppend(cs, [Leaf(Flag(name))]);
    assert PredicatesOf([Leaf(Flag(name))]) == [Flag(name)] by {
      assert [Leaf(Flag(name))][1..] == [];
    }
    FirstUnknownKeyAppend(PredicatesOf(cs), [Flag(name)]);
  }

  // ---------------------------------------------------------------------------------------
  // The scenarios of the parser's tests, stated over any grammar and table that agree with
  // them on the inputs involved
  // ---------------------------------------------------------------------------------------

  /** A known triple yields its own record. */
  lemma KnownTripleYieldsItsRecord(parseCfg: CfgParser, table: Triples)
    requires WellKeyed(table)
    requires "x86_64-apple-darwin" in table
    ensures Parse(parseCfg, table, "x86_64-apple-darwin").Success?
    ensures Parse(parseCfg, table, "x86_64-apple-darwin").value.TargetInfo?
    ensures Parse(parseCfg, table, "x86_64-apple-darwin").value.info.triple == "x86_64-apple-darwin"
  {
    assert "x86_64-apple-darwin"[0] != CfgPrefix[0];
  }

  /** An unknown triple is reported, whole, as `UnknownTriple`. */
  lemma UnknownTripleReported(parseCfg: CfgParser, table: Triples)
    requires "x86_64-pc-darwin" !in table
    ensures Parse(parseCfg, table, "x86_64-pc-darwin") == Failure(UnknownTriple("x86_64-pc-darwin"))
  {
    assert "x86_64-pc-darwin"[0] != CfgPrefix[0];
  }

  /** `cfg(windows)`, `cfg(not(windows))` and `cfg(target_os = "windows")` are accepted, with
      the typed predicates the grammar produced for them. */
  lemma TypedPredicatesAccepted(parseCfg: CfgParser, table: Triples)
    requires parseCfg("cfg(windows)") == Success(Leaf(Target(Family("windows"))))
    requires parseCfg("cfg(not(windows))") == Success(Not(Leaf(Target(Family("windows")))))
    requires parseCfg("cfg(target_os = \"windows\")") == Success(Leaf(Target(Os("windows"))))
    ensures Parse(parseCfg, table, "cfg(windows)") == Success(Spec(Leaf(Target(Family("windows")))))
    ensures Parse(parseCfg, table, "cfg(not(windows))").Success?
    ensures Parse(parseCfg, table, "cfg(not(windows))").value.Spec?
    ensures Parse(parseCfg, table, "cfg(target_os = \"windows\")") == Success(Spec(Leaf(Target(Os("windows")))))
  {
  }

  /** `cfg(foo)`: an unknown bare flag is accepted, leaving the single leaf `Flag("foo")`. */
  lemma UnknownFlagAccepted(parseCfg: CfgParser, table: Triples)
    requires parseCfg("cfg(foo)") == Success(Leaf(Flag("foo")))
    ensures Parse(parseCfg, table, "cfg(foo)") == Success(Spec(Leaf(Flag("foo"))))
    ensures Predicates(Parse(parseCfg, table, "cfg(foo)").value.expr) == [Flag("foo")]
  {
  }

  /** `cfg(bogus_key = "bogus_value")`: an unrecognised key is rejected by name. */
  lemma BogusKeyRejected(parseCfg: CfgParser, table: Triples)
    requires parseCfg("cfg(bogus_key = \"bogus_value\")") == Success(Leaf(KeyValue("bogus_key", "bogus_value")))
    ensures Parse(parseCfg, table, "cfg(bogus_key = \"bogus_value\")") == Failure(UnknownPredicate("bogus_key"))
  {
  }

  /** `cfg(unix)this-is-extra` and `cfg(not(unix)`: when the grammar reports trailing content
      or a missing `)`, the input fails with `InvalidCfg` and its message. */
  lemma MalformedExpressionsRejected(parseCfg: CfgParser, table: Triples)
    requires parseCfg("cfg(unix)this-is-extra").Failure?
    requires parseCfg("cfg(not(unix)").Failure?
    ensures Parse(parseCfg, table, "cfg(unix)this-is-extra") ==
      Failure(InvalidCfg(parseCfg("cfg(unix)this-is-extra").error.message))
    ensures Parse(parseCfg, table, "cfg(not(unix)") ==
      Failure(InvalidCfg(parseCfg("cfg(not(unix)").error.message))
  {
  }

  // ---------------------------------------------------------------------------------------
  // Display
  // ---------------------------------------------------------------------------------------

  /** `p + q` begins with `p` and then continues with `q`. */
  lemma SplitAtPrefix(p: string, q: string)
    ensures StartsWith(p + q, p) && (p + q)[|p|..] == q
  {
  }

  /** A rendered error can be read back: the kind is recovered from the fixed text and the
      payload from what follows it. */
  lemma DisplayRoundTrip(e: ParseError)
    ensures ErrorFromDisplay(Display(e)) == Some(e)
  {
    SplitAtPrefix(Prefix(e), Payload(e));
    assert Display(e) == Prefix(e) + Payload(e);
    var s := Display(e);
    match e
    case InvalidCfg(_) =>
    case UnknownTriple(_) =>
      assert s[0] == 'u' != InvalidCfgPrefix[0];
    case UnknownPredicate(_) =>
      assert s[0] == 'c' != InvalidCfgPrefix[0];
      assert s[0] != UnknownTriplePrefix[0];
  }

  /** Conversely, whatever is read back from a string renders as that same string. */
  lemma DisplayOfReadBack(s: string)
    requires ErrorFromDisplay(s).Some?
    ensures Display(ErrorFromDisplay(s).value) == s
  {
  }

  /** Different errors render differently, so a message identifies its error. */
  lemma DisplayInjective(a: ParseError, b: ParseError)
    requires Display(a) == Display(b)
    ensures a == b
  {
    DisplayRoundTrip(a);
    DisplayRoundTrip(b);
  }
}
