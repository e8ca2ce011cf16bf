# target-spec parser, modelled in Dafny

`target-spec` decides whether a platform-specific section of a `Cargo.toml` file applies to a
given platform. The section's key is either a full target triple (`x86_64-pc-windows-gnu`) or a
`cfg()` expression (`cfg(all(unix, target_arch = "x86_64"))`). This project models the parser
that classifies such a key and validates it (`target-spec/src/parser.rs`):

- `Parser.Parse` (`Target::parse`): an input that begins with exactly `cfg(` goes to the
  `cfg_expr` grammar and then to validation. Any other input is looked up, whole, in the table
  of known triples.
- `Parser.VerifyExpr` (`Target::verify_expr`): it walks the leaf predicates left to right and
  rejects the first `KeyValue` leaf with `UnknownPredicate(key)`. The grammar turns every key it
  recognises into a typed predicate, so a leftover `KeyValue` is an unknown key. Bare flags are
  never rejected. On success the expression is wrapped unchanged as `Spec`.
- `Parser.FromStr` (`TargetSpec::from_str`) wraps the parsed target.
- `Parser.Display` renders each `ParseError` as a fixed text followed by its payload.

The two foreign collaborators are parameters of the model:

- `CfgParser`: a function from the input string to an `Expression` or a `CfgParseError`.
  It stands for `cfg_expr::Expression::parse`.
- `Triples`: a map from triple to `TargetInfo` record. It stands for `get_target_by_triple`.
  Lemmas that speak of the record's triple assume `WellKeyed`: each record's `triple` equals
  its key.

`CfgExpr` models the interface of `cfg_expr` that the parser uses. This covers the `Predicate`
and `TargetPredicate` variants and an `Expression` tree of `all`, `any` and `not` over leaves.
It also covers `Predicates`, the left-to-right sequence of leaves that `Expression::predicates()`
yields.

Two facts about the code shape the model:

- The error variants are `InvalidCfg` (a syntax error, carrying the grammar's message),
  `UnknownTriple` (carrying the input) and `UnknownPredicate` (carrying the key).
- The parser keeps no allow-list of keys. It rejects every `KeyValue` leaf, because the grammar
  has already turned the keys it recognises into typed predicates.

## Model

| member | source | states |
|---|---|---|
| `Parser.FirstUnknownKey` | target-spec/src/parser.rs:83-87 | the search finds nothing iff no leaf is a key/value pair; otherwise it returns the key of the first key/value leaf |
| `Parser.VerifyExpr` | target-spec/src/parser.rs:80-89 | validation succeeds iff no leaf is a key/value pair; on success it returns `Spec` of the same expression; on failure it returns `UnknownPredicate` with the key of the first key/value leaf |
| `Parser.Parse` | target-spec/src/parser.rs:68-77 | a `cfg(`-prefixed input yields only `Spec`, `InvalidCfg` or `UnknownPredicate`: a grammar error yields `InvalidCfg` with the grammar's message; a grammar expression `e` is accepted iff no leaf of `e` is a key/value pair, yields `Spec(e)`, and is otherwise rejected with the key of `e`'s first key/value leaf; any other input succeeds iff it is in the table, yields that table entry, and otherwise fails with `UnknownTriple(input)` |
| `Parser.FromStr` | target-spec/src/parser.rs:53-57 | succeeds exactly when `Parse` does and wraps the same target; otherwise returns the same error |
| `Parser.Display` | target-spec/src/parser.rs:110-120 | the message begins with the fixed text of the error's kind and ends with the error's payload, and has no other characters |
| `ParserProperties.DisplayRoundTrip` | target-spec/src/parser.rs:110-120 | the kind and payload of every error can be read back from its message |
| `ParserProperties.DisplayOfReadBack` | target-spec/src/parser.rs:110-120 | a string that reads back as an error is exactly that error's message |
| `ParserProperties.DisplayInjective` | target-spec/src/parser.rs:110-120 | two errors with the same message are the same error |
| `ParserProperties.CfgInputNeverTriple` | target-spec/src/parser.rs:69-71 | an input that begins with `cfg(` never yields a triple record and never `UnknownTriple` |
| `ParserProperties.TripleInputNeverSpec` | target-spec/src/parser.rs:72-75 | any other input yields the record whose triple is the input, or exactly `UnknownTriple(input)`; it succeeds iff the input is a known triple |
| `ParserProperties.PrefixIsCaseSensitive` | target-spec/src/parser.rs:69 | `Cfg(unix)` and `cfg (unix)` take the triple path |
| `ParserProperties.SyntaxErrorIsInvalidCfg` | target-spec/src/parser.rs:104-107 | a grammar error on a `cfg(` input yields `InvalidCfg` with the grammar's message and no target |
| `ParserProperties.ParseYieldsValidTarget` | target-spec/src/parser.rs:60-64 | every parsed target is valid: either a record stored under its own triple, or an expression with no key/value leaf; the same holds through `FromStr` |
| `ParserProperties.RejectedKeyIsFirst` | target-spec/src/parser.rs:83-86 | if position `i` holds the first key/value leaf, validation fails with exactly that leaf's key |
| `ParserProperties.FlagsAndTargetsAccepted` | target-spec/src/parser.rs:81-82 | a bare flag, known or not, and a typed target predicate are accepted unchanged |
| `ParserProperties.FirstUnknownKeyAppend` | target-spec/src/parser.rs:83-87 | searching a concatenation returns the first part's key if it has one, and otherwise the second part's |
| `ParserProperties.VerifyAllIsFirstFailingChild` | target-spec/src/parser.rs:83-87 | `all(cs)` passes validation iff every child does; otherwise it fails with the error of the first child that fails |
| `ParserProperties.ValidationIgnoresConnectives` | target-spec/src/parser.rs:83-87 | `any(cs)` and `not(all(cs))` get the same verdict and the same error as `all(cs)` |
| `ParserProperties.AddingFlagKeepsVerdict` | target-spec/src/parser.rs:81-82 | adding a bare flag to `all(...)` changes neither the verdict nor the error |
| `ParserProperties.KnownTripleYieldsItsRecord` | target-spec/src/parser.rs:130-137 | `x86_64-apple-darwin`, when known, yields the record with that triple |
| `ParserProperties.UnknownTripleReported` | target-spec/src/parser.rs:178-185 | `x86_64-pc-darwin`, when unknown, yields `UnknownTriple("x86_64-pc-darwin")` |
| `ParserProperties.TypedPredicatesAccepted` | target-spec/src/parser.rs:139-176 | `cfg(windows)`, `cfg(not(windows))` and `cfg(target_os = "windows")` yield `Spec` holding the grammar's typed predicates |
| `ParserProperties.UnknownFlagAccepted` | target-spec/src/parser.rs:187-200 | `cfg(foo)` yields `Spec` whose only leaf is `Flag("foo")` |
| `ParserProperties.BogusKeyRejected` | target-spec/src/parser.rs:202-206 | `cfg(bogus_key = "bogus_value")` yields `UnknownPredicate("bogus_key")` |
| `ParserProperties.MalformedExpressionsRejected` | target-spec/src/parser.rs:208-219 | trailing content and a missing `)` yield `InvalidCfg` with the grammar's message |

## Left out

- `cfg_expr::Expression::parse` is an injected function. The model does not include its
  grammar, and the scenario lemmas state what it returns as preconditions.
- The display text of `cfg_expr::ParseError` is not modelled. A grammar error is reduced to its
  rendered message, which `InvalidCfg` carries unchanged.
- `get_target_by_triple` is an injected map, and the contents of `TargetInfo` are left
  uninterpreted. The only fact assumed is that a record's `triple` equals its key.
- `TargetSpec::eval` and the three-valued evaluation (`eval_target`) are left out. They live in
  `evaluator.rs`, which is not part of this model.
- `Arc` sharing of the parsed expression is left out. It affects ownership only, so the model
  keeps a plain value.
- `target-spec/src/lib.rs` (module declarations and re-exports) and its `proptest` module
  (test-data generation) are left out.
- `impl error::Error for ParseError` is left out. It adds no behaviour.
- Rust strings are UTF-8 bytes and the model uses `seq<char>`. For the ASCII prefix `cfg(`, a
  byte prefix and a character prefix are the same test.
