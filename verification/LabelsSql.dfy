/**
 The selector's SQL translation (LabelSelector.SQL in go/agentdb/labels.go) and its meaning.

 The translation is kept as the tokens of the rendered predicate, so that operator precedence and the
 parentheses the translator writes matter. The meaning is given by a recursive-descent reading of those tokens
 (NOT binds tighter than AND, AND tighter than OR) in which every placeholder takes the next positional argument.
 */
module LabelsSql {
  import opened Text
  import opened Labels
  import LabelsRoundTrip

  // `ExistsTok` is jsonb_exists(col, ?) and `ContainsTok` is col @> ?::jsonb; each holds one placeholder.
  datatype Token = LParen | RParen | AndTok | OrTok | NotTok | ExistsTok | ContainsTok

  // What a placeholder is bound to: a key, or the JSON object {key: value}.
  datatype Arg = KeyArg(key: string) | PairArg(key: string, value: string)

  // ---- the translator ----

  datatype Sql = Sql(tokens: seq<Token>, args: seq<Arg>)

  function JoinTokens(parts: seq<seq<Token>>, sep: Token): seq<Token> {
    if parts == [] then [] else if |parts| == 1 then parts[0] else parts[0] + [sep] + JoinTokens(parts[1..], sep)
  }

  function Ors(n: nat): (parts: seq<seq<Token>>)
    ensures |parts| == n
  {
    seq(n, i => [ContainsTok])
  }

  function ClauseTokens(r: Requirement): seq<Token> {
    match r.op
    case Exists => [ExistsTok]
    case NotExists => [NotTok, ExistsTok]
    case Equals => [ContainsTok]
    case NotEquals => [NotTok, LParen, ContainsTok, RParen]
    case In => [LParen] + JoinTokens(Ors(|r.values|), OrTok) + [RParen]
    case NotIn => [NotTok] + ([LParen] + JoinTokens(Ors(|r.values|), OrTok) + [RParen])
  }

  function PairArgs(key: string, vs: seq<string>): seq<Arg> {
    seq(|vs|, i requires 0 <= i < |vs| => PairArg(key, vs[i]))
  }

  function ClauseArgs(r: Requirement): seq<Arg> {
    match r.op
    case Exists | NotExists => [KeyArg(r.key)]
    case _ => PairArgs(r.key, r.values)
  }

  function AllClauses(sel: Selector): (parts: seq<seq<Token>>)
    ensures |parts| == |sel|
  {
    if sel == [] then [] else [ClauseTokens(sel[0])] + AllClauses(sel[1..])
  }

  function AllArgs(sel: Selector): seq<Arg> {
    if sel == [] then [] else ClauseArgs(sel[0]) + AllArgs(sel[1..])
  }

  function Translation(sel: Selector): Sql {
    Sql(JoinTokens(AllClauses(sel), AndTok), AllArgs(sel))
  }

  method SQL(sel: Selector) returns (sql: Sql)
    requires Printable(sel)
    ensures sql == Translation(sel)
  {
    if sel == [] {
      return Sql([], []);
    }
    var clauses: seq<seq<Token>> := [];
    var args: seq<Arg> := [];
    assert sel[0..] == sel;
    for i := 0 to |sel|
      invariant AllClauses(sel) == clauses + AllClauses(sel[i..])
      invariant AllArgs(sel) == args + AllArgs(sel[i..])
    {
      assert sel[i..][1..] == sel[i + 1..];
      var r := sel[i];
      var clause, bound := RenderClause(r);
      clauses := clauses + [clause];
      args := args + bound;
    }
    assert clauses + [] == clauses && args + [] == args;
    sql := Sql(JoinTokens(clauses, AndTok), args);
  }

  // The switch over the operators.
  method RenderClause(r: Requirement) returns (clause: seq<Token>, bound: seq<Arg>)
    requires HasArity(r)
    ensures clause == ClauseTokens(r) && bound == ClauseArgs(r)
  {
    match r.op {
      case Exists =>
        clause, bound := [ExistsTok], [KeyArg(r.key)];
      case NotExists =>
        clause, bound := [NotTok, ExistsTok], [KeyArg(r.key)];
      case Equals =>
        clause, bound := [ContainsTok], [PairArg(r.key, r.values[0])];
      case NotEquals =>
        clause, bound := [NotTok, LParen, ContainsTok, RParen], [PairArg(r.key, r.values[0])];
      case In | NotIn =>
        clause, bound := SetClause(r);
    }
  }

  // The inner loop: one containment test per value.
  method SetClause(r: Requirement) returns (joined: seq<Token>, pairs: seq<Arg>)
    requires IsSetOp(r.op)
    ensures joined == ClauseTokens(r) && pairs == PairArgs(r.key, r.values)
  {
    var ors: seq<seq<Token>> := [];
    pairs := [];
    for j := 0 to |r.values|
      invariant ors == Ors(j)
      invariant pairs == PairArgs(r.key, r.values[..j])
    {
      ors := ors + [[ContainsTok]];
      pairs := pairs + [PairArg(r.key, r.values[j])];
    }
    assert r.values[..|r.values|] == r.values;
    joined := [LParen] + JoinTokens(ors, OrTok) + [RParen];
    if r.op == NotIn {
      joined := [NotTok] + joined;
    }
  }

  // ---- the meaning ----

  // A truth value, with the tokens and the positional arguments not yet consumed.
  datatype Eval = Eval(holds: bool, tokens: seq<Token>, args: seq<Arg>)

  predicate Contains(labels: LabelMap, key: string, value: string) {
    key in labels && labels[key] == value
  }

  function EvalOr(tokens: seq<Token>, args: seq<Arg>, labels: LabelMap): (r: Option<Eval>)
    ensures r.Some? ==> |r.value.tokens| < |tokens|
    decreases |tokens|, 3
  {
    match EvalAnd(tokens, args, labels)
    case None => None
    case Some(e) =>
      if e.tokens != [] && e.tokens[0] == OrTok then
        match EvalOr(e.tokens[1..], e.args, labels)
        case None => None
        case Some(f) => Some(Eval(e.holds || f.holds, f.tokens, f.args))
      else Some(e)
  }

  function EvalAnd(tokens: seq<Token>, args: seq<Arg>, labels: LabelMap): (r: Option<Eval>)
    ensures r.Some? ==> |r.value.tokens| < |tokens|
    decreases |tokens|, 2
  {
    match EvalNot(tokens, args, labels)
    case None => None
    case Some(e) =>
      if e.tokens != [] && e.tokens[0] == AndTok then
        match EvalAnd(e.tokens[1..], e.args, labels)
        case None => None
        case Some(f) => Some(Eval(e.holds && f.holds, f.tokens, f.args))
      else Some(e)
  }

  function EvalNot(tokens: seq<Token>, args: seq<Arg>, labels: LabelMap): (r: Option<Eval>)
    ensures r.Some? ==> |r.value.tokens| < |tokens|
    decreases |tokens|, 1
  {
    if tokens != [] && tokens[0] == NotTok then
      match EvalNot(tokens[1..], args, labels)
      case None => None
      case Some(e) => Some(Eval(!e.holds, e.tokens, e.args))
    else EvalPrimary(tokens, args, labels)
  }

  function EvalPrimary(tokens: seq<Token>, args: seq<Arg>, labels: LabelMap): (r: Option<Eval>)
    ensures r.Some? ==> |r.value.tokens| < |tokens|
    decreases |tokens|, 0
  {
    if tokens == [] then None
    else match tokens[0]
      case LParen =>
        (match EvalOr(tokens[1..], args, labels)
         case None => None
         case Some(e) =>
           if e.tokens != [] && e.tokens[0] == RParen then Some(Eval(e.holds, e.tokens[1..], e.args)) else None)
      case ExistsTok =>
        if args != [] && args[0].KeyArg? then Some(Eval(args[0].key in labels, tokens[1..], args[1..])) else None
      case ContainsTok =>
        if args != [] && args[0].PairArg?
        then Some(Eval(Contains(labels, args[0].key, args[0].value), tokens[1..], args[1..])) else None
      case _ => None
  }

  // ---- agreement with the in-memory evaluator ----

  predicate AnyContains(labels: LabelMap, key: string, vs: seq<string>) {
    exists v :: v in vs && Contains(labels, key, v)
  }

  lemma ContainsIsOne(key: string, v: string, tokens: seq<Token>, args: seq<Arg>, labels: LabelMap)
    ensures EvalNot([ContainsTok] + tokens, [PairArg(key, v)] + args, labels) ==
            Some(Eval(Contains(labels, key, v), tokens, args))
  {
    assert ([ContainsTok] + tokens)[1..] == tokens && ([PairArg(key, v)] + args)[1..] == args;
  }

  // A disjunction of containments, closed by a parenthesis, is read as a whole and eats one argument per value.
  lemma {:induction false} OrsMean(key: string, vs: seq<string>, tokens: seq<Token>, args: seq<Arg>, labels: LabelMap)
    requires |vs| > 0
    ensures EvalOr(JoinTokens(Ors(|vs|), OrTok) + ([RParen] + tokens), PairArgs(key, vs) + args, labels) ==
            Some(Eval(AnyContains(labels, key, vs), [RParen] + tokens, args))
  {
    hide EvalNot;
    var close, all := [RParen] + tokens, JoinTokens(Ors(|vs|), OrTok) + ([RParen] + tokens);
    assert PairArgs(key, vs) == [PairArg(key, vs[0])] + PairArgs(key, vs[1..]);
    assert Ors(|vs|)[1..] == Ors(|vs| - 1);
    if |vs| == 1 {
      assert all == [ContainsTok] + close;
      assert PairArgs(key, vs) + args == [PairArg(key, vs[0])] + args;
      ContainsIsOne(key, vs[0], close, args, labels);
      assert vs == [vs[0]];
      assert AnyContains(labels, key, vs) == Contains(labels, key, vs[0]);
    } else {
      var more := JoinTokens(Ors(|vs| - 1), OrTok) + close;
      var moreArgs := PairArgs(key, vs[1..]) + args;
      assert all == [ContainsTok] + ([OrTok] + more);
      assert PairArgs(key, vs) + args == [PairArg(key, vs[0])] + moreArgs;
      ContainsIsOne(key, vs[0], [OrTok] + more, moreArgs, labels);
      OrsMean(key, vs[1..], tokens, args, labels);
      assert ([OrTok] + more)[1..] == more;
      AnySplits(labels, key, vs);
    }
  }

  lemma AnySplits(labels: LabelMap, key: string, vs: seq<string>)
    requires |vs| > 0
    ensures AnyContains(labels, key, vs) <==> Contains(labels, key, vs[0]) || AnyContains(labels, key, vs[1..])
  {
    assert vs == [vs[0]] + vs[1..];
  }

  lemma ParenthesisedMean(key: string, vs: seq<string>, tokens: seq<Token>, args: seq<Arg>, labels: LabelMap)
    requires |vs| > 0
    ensures EvalNot([LParen] + JoinTokens(Ors(|vs|), OrTok) + [RParen] + tokens, PairArgs(key, vs) + args, labels) ==
            Some(Eval(AnyContains(labels, key, vs), tokens, args))
  {
    hide EvalOr;
    var body := JoinTokens(Ors(|vs|), OrTok);
    var all := [LParen] + body + [RParen] + tokens;
    assert all[0] == LParen && all[1..] == body + ([RParen] + tokens);
    OrsMean(key, vs, tokens, args, labels);
    assert ([RParen] + tokens)[1..] == tokens;
  }

  lemma NotFlips(tokens: seq<Token>, args: seq<Arg>, labels: LabelMap)
    requires EvalNot(tokens, args, labels).Some?
    ensures var e := EvalNot(tokens, args, labels).value;
            EvalNot([NotTok] + tokens, args, labels) == Some(Eval(!e.holds, e.tokens, e.args))
  {
    assert ([NotTok] + tokens)[1..] == tokens;
  }

  // One clause: read whole, true exactly when the requirement is satisfied, and its own arguments consumed.
  lemma ClauseMeans(r: Requirement, tokens: seq<Token>, args: seq<Arg>, labels: LabelMap)
    requires HasArity(r)
    ensures EvalNot(ClauseTokens(r) + tokens, ClauseArgs(r) + args, labels) ==
            Some(Eval(Satisfied(r, labels), tokens, args))
  {
    hide EvalNot, JoinTokens;
    match r.op
    case Exists | NotExists => ExistenceMeans(r, tokens, args, labels);
    case Equals =>
      assert PairArgs(r.key, r.values) == [PairArg(r.key, r.values[0])];
      ContainsIsOne(r.key, r.values[0], tokens, args, labels);
    case NotEquals =>
      NotEqualsMeans(r, tokens, args, labels);
    case In =>
      ParenthesisedMean(r.key, r.values, tokens, args, labels);
    case NotIn =>
      var inner := [LParen] + JoinTokens(Ors(|r.values|), OrTok) + [RParen];
      ParenthesisedMean(r.key, r.values, tokens, args, labels);
      NotFlips(inner + tokens, PairArgs(r.key, r.values) + args, labels);
      assert [NotTok] + inner + tokens == [NotTok] + (inner + tokens);
  }

  lemma ExistenceMeans(r: Requirement, tokens: seq<Token>, args: seq<Arg>, labels: LabelMap)
    requires r.op.Exists? || r.op.NotExists?
    requires HasArity(r)
    ensures EvalNot(ClauseTokens(r) + tokens, ClauseArgs(r) + args, labels) ==
            Some(Eval(Satisfied(r, labels), tokens, args))
  {
    var bound, one := [KeyArg(r.key)] + args, [ExistsTok] + tokens;
    assert bound[1..] == args && one[1..] == tokens;
    if r.op == NotExists {
      NotFlips(one, bound, labels);
      assert [NotTok, ExistsTok] + tokens == [NotTok] + one;
    }
  }

  lemma NotEqualsMeans(r: Requirement, tokens: seq<Token>, args: seq<Arg>, labels: LabelMap)
    requires r.op == NotEquals && HasArity(r)
    ensures EvalNot(ClauseTokens(r) + tokens, ClauseArgs(r) + args, labels) ==
            Some(Eval(Satisfied(r, labels), tokens, args))
  {
    hide EvalNot;
    ParenthesisedMean(r.key, r.values, tokens, args, labels);
    assert JoinTokens(Ors(1), OrTok) == [ContainsTok];
    var inner := [LParen] + [ContainsTok] + [RParen] + tokens;
    assert ClauseTokens(r) + tokens == [NotTok] + inner;
    assert EvalNot(inner, PairArgs(r.key, r.values) + args, labels) ==
           Some(Eval(AnyContains(labels, r.key, r.values), tokens, args));
    NotFlips(inner, PairArgs(r.key, r.values) + args, labels);
    AnySplits(labels, r.key, r.values);
    assert r.values[1..] == [];
  }

  lemma {:induction false} ConjunctionMeans(sel: Selector, labels: LabelMap)
    requires Printable(sel) && sel != []
    ensures EvalAnd(JoinTokens(AllClauses(sel), AndTok), AllArgs(sel), labels) ==
            Some(Eval(Matches(sel, labels), [], []))
  {
    hide EvalNot, ClauseTokens, ClauseArgs, Satisfied;
    var r, rest := sel[0], sel[1..];
    assert sel == [r] + rest;
    assert AllClauses(sel)[1..] == AllClauses(rest);
    if rest == [] {
      ClauseMeans(r, [], [], labels);
      assert ClauseTokens(r) + [] == ClauseTokens(r) && ClauseArgs(r) + [] == ClauseArgs(r);
    } else {
      var more := JoinTokens(AllClauses(rest), AndTok);
      ClauseMeans(r, [AndTok] + more, AllArgs(rest), labels);
      assert ClauseTokens(r) + [AndTok] + more == ClauseTokens(r) + ([AndTok] + more);
      assert ([AndTok] + more)[1..] == more;
      ConjunctionMeans(rest, labels);
    }
  }

  // For every selector with the operators' own value counts and every label map: the translated predicate, read
  // with SQL's precedence and its arguments taken left to right, is true exactly when the selector matches in
  // memory, and uses up every token and every argument.
  lemma SqlAgreesWithMatches(sel: Selector, labels: LabelMap)
    requires Printable(sel) && sel != []
    ensures EvalOr(Translation(sel).tokens, Translation(sel).args, labels) == Some(Eval(Matches(sel, labels), [], []))
  {
    hide EvalAnd;
    ConjunctionMeans(sel, labels);
  }

  // LabelSelectorSQL: parse and translate in one call. An empty selector adds no predicate.
  method LabelSelectorSQL(text: string) returns (r: Result<Sql, ParseError>)
    ensures r.Err? <==> Parse(text).Err?
    ensures r.Ok? ==> Printable(Parse(text).value) && r.value == Translation(Parse(text).value)
  {
    var parsed := ParseLabelSelector(text);
    match parsed {
      case Err(e) => return Err(e);
      case Ok(sel) =>
        LabelsRoundTrip.ParsedSelectorWellFormed(text);
        var sql := SQL(sel);
        return Ok(sql);
    }
  }

  // The same for selector text: parsing, translating and evaluating answers what matching answers.
  lemma SelectorTextSql(text: string, labels: LabelMap)
    requires Parse(text).Ok?
    ensures var sel := Parse(text).value;
            Printable(sel) &&
            (sel == [] ==> Matches(sel, labels) && Translation(sel) == Sql([], [])) &&
            (sel != [] ==> EvalOr(Translation(sel).tokens, Translation(sel).args, labels) ==
                           Some(Eval(Matches(sel, labels), [], [])))
  {
    LabelsRoundTrip.ParsedSelectorWellFormed(text);
    var sel := Parse(text).value;
    if sel != [] {
      SqlAgreesWithMatches(sel, labels);
    }
  }
}
