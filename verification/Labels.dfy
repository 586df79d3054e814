/**
 Label selectors (go/agentdb/labels.go): the parser, the printer, and the in-memory evaluator.

 Text is a sequence of code points, which is what the splitter's `range` loop sees. A byte that is
 not UTF-8 has already become U+FFFD there, and no valid key or value holds one.
 */
module Labels {
  import opened Text

  const MAX_LABEL_LEN := 63

  type LabelMap = map<string, string>

  datatype Operator = Equals | NotEquals | In | NotIn | Exists | NotExists

  datatype Requirement = Requirement(key: string, op: Operator, values: seq<string>)

  // A conjunction of requirements.
  type Selector = seq<Requirement>

  datatype ParseError = UnbalancedClose | UnbalancedOpen | BadKey | BadValue | EmptyValue

  // ---- keys and values ----

  predicate IsAlnum(c: char) {
    'A' <= c <= 'Z' || 'a' <= c <= 'z' || '0' <= c <= '9'
  }

  predicate IsLabelChar(c: char) {
    IsAlnum(c) || c == '-' || c == '_' || c == '.'
  }

  predicate MatchesLabelRe(s: string) {
    s != "" && IsAlnum(s[0]) && IsAlnum(s[|s| - 1]) && forall i :: 0 <= i < |s| ==> IsLabelChar(s[i])
  }

  predicate ValidKey(k: string) {
    |k| <= MAX_LABEL_LEN && MatchesLabelRe(k)
  }

  predicate ValidValue(v: string) {
    v == "" || (|v| <= MAX_LABEL_LEN && MatchesLabelRe(v))
  }

  // ---- splitting into terms ----

  function Flushed(buf: string): seq<string> {
    var t := Trim(buf);
    if t == "" then [] else [t]
  }

  function Prepend<T>(ts: seq<T>, r: Result<seq<T>, ParseError>): Result<seq<T>, ParseError> {
    match r
    case Ok(us) => Ok(ts + us)
    case Err(e) => Err(e)
  }

  lemma PrependTwice<T>(a: seq<T>, b: seq<T>, r: Result<seq<T>, ParseError>)
    ensures Prepend(a, Prepend(b, r)) == Prepend(a + b, r)
    ensures Prepend([], r) == r
  {
    if r.Ok? {
      assert a + (b + r.value) == a + b + r.value;
      assert [] + r.value == r.value;
    }
  }

  // What splitting `s` still yields when `buf` has been read of the current term, at parenthesis depth `depth`.
  function SplitFrom(s: string, buf: string, depth: int): Result<seq<string>, ParseError> {
    if s == "" then
      if depth != 0 then Err(UnbalancedOpen) else Ok(Flushed(buf))
    else
      var c, rest := s[0], s[1..];
      if c == '(' then SplitFrom(rest, buf + [c], depth + 1)
      else if c == ')' then
        if depth - 1 < 0 then Err(UnbalancedClose) else SplitFrom(rest, buf + [c], depth - 1)
      else if c == ',' && depth == 0 then Prepend(Flushed(buf), SplitFrom(rest, "", 0))
      else SplitFrom(rest, buf + [c], depth)
  }

  method SplitTerms(s: string) returns (r: Result<seq<string>, ParseError>)
    ensures r == SplitFrom(s, "", 0)
  {
    var terms: seq<string> := [];
    var buf := "";
    var depth := 0;
    assert s[0..] == s;
    PrependTwice([], [], SplitFrom(s, "", 0));
    for i := 0 to |s|
      invariant SplitFrom(s, "", 0) == Prepend(terms, SplitFrom(s[i..], buf, depth))
    {
      var c := s[i];
      assert s[i..][1..] == s[i + 1..];
      if c == '(' {
        depth := depth + 1;
        buf := buf + [c];
      } else if c == ')' {
        depth := depth - 1;
        if depth < 0 {
          return Err(UnbalancedClose);
        }
        buf := buf + [c];
      } else if c == ',' && depth == 0 {
        PrependTwice(terms, Flushed(buf), SplitFrom(s[i + 1..], "", 0));
        terms := terms + Flushed(buf);
        buf := "";
      } else {
        buf := buf + [c];
      }
    }
    if depth != 0 {
      return Err(UnbalancedOpen);
    }
    return Ok(terms + Flushed(buf));
  }

  // ---- one requirement ----

  // The regular-expression class \s, which has the form feed ...
  predicate IsReSpace(c: char) {
    c == ' ' || c == '\t' || c == '\n' || c == '\r' || c as int == 12
  }

  // ... and the separator test of the `exists key` spelling, which does not.
  predicate IsWordSpace(c: char) {
    c == ' ' || c == '\t' || c == '\n' || c == '\r'
  }

  function CutWord(term: string, word: string): Option<string> {
    if word <= term && |term| > |word| && IsWordSpace(term[|word|]) then Some(term[|word|..]) else None
  }

  function ReSpaceRun(s: string, i: nat): (j: nat)
    requires i <= |s|
    ensures i <= j <= |s|
    decreases |s| - i
  {
    if i < |s| && IsReSpace(s[i]) then ReSpaceRun(s, i + 1) else i
  }

  function NonSpaceRun(s: string, i: nat): (j: nat)
    requires i <= |s|
    ensures i <= j <= |s|
    decreases |s| - i
  {
    if i < |s| && !IsReSpace(s[i]) then NonSpaceRun(s, i + 1) else i
  }

  predicate IsSetOp(op: Operator) {
    op.In? || op.NotIn?
  }

  datatype SetTerm = SetTerm(key: string, op: Operator, body: string)

  // ^(\S+)\s+(in|notin)\s*\((.*)\)$ -- every repetition is forced to be maximal, so there is one match at most.
  function MatchSetTerm(t: string): Option<SetTerm> {
    var i := NonSpaceRun(t, 0);
    var j := ReSpaceRun(t, i);
    if i == 0 || j == i then None
    else if "in" <= t[j..] then MatchSetBody(t, t[..i], In, j + 2)
    else if "notin" <= t[j..] then MatchSetBody(t, t[..i], NotIn, j + 5)
    else None
  }

  function MatchSetBody(t: string, key: string, op: Operator, from: nat): Option<SetTerm>
    requires from <= |t|
  {
    var k := ReSpaceRun(t, from);
    if k + 1 < |t| && t[k] == '(' && t[|t| - 1] == ')' && '\n' !in t[k + 1..|t| - 1]
    then Some(SetTerm(key, op, t[k + 1..|t| - 1])) else None
  }

  function SplitOnComma(s: string): (parts: seq<string>)
    ensures |parts| > 0
  {
    if s == "" then [""]
    else
      var parts := SplitOnComma(s[1..]);
      if s[0] == ',' then [""] + parts else [[s[0]] + parts[0]] + parts[1..]
  }

  function SetValues(parts: seq<string>): Result<seq<string>, ParseError> {
    if parts == [] then Ok([])
    else
      var v := Trim(parts[0]);
      if v == "" then Err(EmptyValue)
      else if !ValidValue(v) then Err(BadValue)
      else Prepend([v], SetValues(parts[1..]))
  }

  // The first position at which `tok` occurs.
  function Index(s: string, tok: string): (r: Option<nat>)
    ensures r.Some? ==> r.value + |tok| <= |s|
  {
    if |s| < |tok| then None
    else if s[..|tok|] == tok then Some(0)
    else match Index(s[1..], tok)
      case None => None
      case Some(i) => Some(i + 1)
  }

  function Comparison(term: string, at: nat, width: nat, op: Operator): Result<Requirement, ParseError>
    requires at + width <= |term|
  {
    var key := Trim(term[..at]);
    var val := Trim(term[at + width..]);
    if !ValidKey(key) then Err(BadKey)
    else if !ValidValue(val) then Err(BadValue)
    else Ok(Requirement(key, op, [val]))
  }

  function KeyOnly(key: string, op: Operator): Result<Requirement, ParseError> {
    if ValidKey(key) then Ok(Requirement(key, op, [])) else Err(BadKey)
  }

  function ParseSet(m: SetTerm): Result<Requirement, ParseError> {
    if !ValidKey(m.key) then Err(BadKey)
    else match SetValues(SplitOnComma(m.body))
      case Ok(vs) => Ok(Requirement(m.key, m.op, vs))
      case Err(e) => Err(e)
  }

  // key!=value, key==value, key=value, or the bare key; the operators are tried in this order.
  function ParseComparison(term: string): Result<Requirement, ParseError> {
    match Index(term, "!=")
    case Some(i) => Comparison(term, i, 2, NotEquals)
    case None =>
      match Index(term, "==")
      case Some(i) => Comparison(term, i, 2, Equals)
      case None =>
        match Index(term, "=")
        case Some(i) => Comparison(term, i, 1, Equals)
        case None => KeyOnly(term, Exists)
  }

  function ParseRequirement(term: string): Result<Requirement, ParseError> {
    if "!" <= term then KeyOnly(Trim(term[1..]), NotExists)
    else match CutWord(term, "exists")
      case Some(rest) => KeyOnly(Trim(rest), Exists)
      case None =>
        match MatchSetTerm(term)
        case Some(m) => ParseSet(m)
        case None => ParseComparison(term)
  }

  function ParseTerms(terms: seq<string>): Result<Selector, ParseError> {
    if terms == [] then Ok([])
    else match ParseRequirement(terms[0])
      case Err(e) => Err(e)
      case Ok(r) => Prepend([r], ParseTerms(terms[1..]))
  }

  function Parse(s: string): Result<Selector, ParseError> {
    match SplitFrom(s, "", 0)
    case Err(e) => Err(e)
    case Ok(terms) => ParseTerms(terms)
  }

  method ParseLabelSelector(s: string) returns (r: Result<Selector, ParseError>)
    ensures r == Parse(s)
  {
    var split := SplitTerms(s);
    if split.Err? {
      return Err(split.error);
    }
    var terms := split.value;
    var sel: Selector := [];
    assert terms[0..] == terms;
    PrependTwice([], [], ParseTerms(terms));
    for i := 0 to |terms|
      invariant ParseTerms(terms) == Prepend(sel, ParseTerms(terms[i..]))
    {
      assert terms[i..][1..] == terms[i + 1..];
      var req := ParseRequirement(terms[i]);
      if req.Err? {
        return Err(req.error);
      }
      PrependTwice(sel, [req.value], ParseTerms(terms[i + 1..]));
      sel := sel + [req.value];
    }
    assert sel + [] == sel;
    return Ok(sel);
  }

  // ---- printing ----

  function Join(parts: seq<string>, sep: string): string {
    if parts == [] then "" else if |parts| == 1 then parts[0] else parts[0] + sep + Join(parts[1..], sep)
  }

  // The number of values each operator carries; the printer reads the first value of a comparison unguarded.
  predicate HasArity(r: Requirement) {
    match r.op
    case Equals | NotEquals => |r.values| == 1
    case In | NotIn => |r.values| > 0
    case Exists | NotExists => r.values == []
  }

  function OpText(op: Operator): string {
    match op
    case Equals => "=" case NotEquals => "!=" case In => "in"
    case NotIn => "notin" case Exists => "exists" case NotExists => "!"
  }

  function PrintRequirement(r: Requirement): string
    requires HasArity(r)
  {
    match r.op
    case Exists => r.key
    case NotExists => "!" + r.key
    case In | NotIn => r.key + " " + OpText(r.op) + " (" + Join(r.values, ",") + ")"
    case Equals | NotEquals => r.key + OpText(r.op) + r.values[0]
  }

  predicate Printable(sel: Selector) {
    forall r :: r in sel ==> HasArity(r)
  }

  function PrintAll(sel: Selector): (parts: seq<string>)
    requires Printable(sel)
    ensures |parts| == |sel|
  {
    if sel == [] then [] else [PrintRequirement(sel[0])] + PrintAll(sel[1..])
  }

  function Print(sel: Selector): string
    requires Printable(sel)
  {
    Join(PrintAll(sel), ",")
  }

  method String(sel: Selector) returns (text: string)
    requires Printable(sel)
    ensures text == Print(sel)
  {
    if sel == [] {
      return "";
    }
    var parts: seq<string> := [];
    assert sel[0..] == sel;
    for i := 0 to |sel|
      invariant PrintAll(sel) == parts + PrintAll(sel[i..])
    {
      assert sel[i..][1..] == sel[i + 1..];
      parts := parts + [PrintRequirement(sel[i])];
    }
    assert parts + [] == parts;
    text := Join(parts, ",");
  }

  // ---- in-memory evaluation ----

  predicate Satisfied(r: Requirement, labels: LabelMap)
    requires HasArity(r)
  {
    var present := r.key in labels;
    match r.op
    case Exists => present
    case NotExists => !present
    case Equals => present && labels[r.key] == r.values[0]
    case NotEquals => !(present && labels[r.key] == r.values[0])
    case In => present && labels[r.key] in r.values
    case NotIn => !(present && labels[r.key] in r.values)
  }

  predicate Matches(sel: Selector, labels: LabelMap)
    requires Printable(sel)
  {
    forall r :: r in sel ==> Satisfied(r, labels)
  }
}
