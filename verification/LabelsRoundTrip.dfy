/** Printing a parsed selector and parsing it again: when it is a fixed point, and when it is not. */
module LabelsRoundTrip {
  import opened Text
  import opened Labels

  predicate SetValue(v: string) {
    v != "" && ValidValue(v)
  }

  predicate AllSetValues(vs: seq<string>) {
    forall v :: v in vs ==> SetValue(v)
  }

  // What the parser can produce: valid keys, and values that fit the operator. A set holds no empty value.
  predicate WellFormed(r: Requirement) {
    ValidKey(r.key) && HasArity(r) &&
    match r.op
    case Equals | NotEquals => ValidValue(r.values[0])
    case In | NotIn => AllSetValues(r.values)
    case Exists | NotExists => true
  }

  predicate AllWellFormed(sel: Selector)
    ensures AllWellFormed(sel) ==> Printable(sel)
  {
    forall r :: r in sel ==> WellFormed(r)
  }

  // The one spelling that does not survive: printed, it reads as the `exists key` form.
  predicate Ambiguous(r: Requirement) {
    IsSetOp(r.op) && r.key == "exists"
  }

  // Text of label characters only: no white space, and none of the grammar's own characters.
  predicate Plain(s: string) {
    forall i :: 0 <= i < |s| ==> IsLabelChar(s[i])
  }

  predicate NoReSpace(s: string) {
    forall i :: 0 <= i < |s| ==> !IsReSpace(s[i])
  }

  // ---- everything the parser yields is well formed ----

  lemma {:induction false} SetValuesWellFormed(parts: seq<string>)
    requires SetValues(parts).Ok?
    ensures |SetValues(parts).value| == |parts|
    ensures AllSetValues(SetValues(parts).value)
  {
    hide ValidValue, Trim;
    if parts != [] {
      SetValuesWellFormed(parts[1..]);
    }
  }

  lemma ParsedSetWellFormed(m: SetTerm)
    requires IsSetOp(m.op) && ParseSet(m).Ok?
    ensures WellFormed(ParseSet(m).value)
  {
    hide ValidKey, ValidValue, AllSetValues;
    SetValuesWellFormed(SplitOnComma(m.body));
  }

  lemma MatchedOp(term: string)
    requires MatchSetTerm(term).Some?
    ensures IsSetOp(MatchSetTerm(term).value.op)
  {
  }

  lemma ComparisonWellFormed(term: string, at: nat, width: nat, op: Operator)
    requires at + width <= |term| && (op.Equals? || op.NotEquals?)
    requires Comparison(term, at, width, op).Ok?
    ensures WellFormed(Comparison(term, at, width, op).value)
  {
    hide ValidKey, ValidValue, Trim;
  }

  lemma ParsedComparisonWellFormed(term: string)
    requires ParseComparison(term).Ok?
    ensures WellFormed(ParseComparison(term).value)
  {
    hide ValidKey, AllSetValues, Index, Comparison;
    match Index(term, "!=")
    case Some(i) => ComparisonWellFormed(term, i, 2, NotEquals);
    case None =>
      match Index(term, "==")
      case Some(i) => ComparisonWellFormed(term, i, 2, Equals);
      case None =>
        match Index(term, "=")
        case Some(i) => ComparisonWellFormed(term, i, 1, Equals);
        case None =>
  }

  lemma ParsedRequirementWellFormed(term: string)
    requires ParseRequirement(term).Ok?
    ensures WellFormed(ParseRequirement(term).value)
  {
    hide ValidKey, Trim, MatchSetTerm, ParseSet, ParseComparison;
    match MatchSetTerm(term)
    case Some(m) =>
      MatchedOp(term);
      if ParseSet(m).Ok? {
        ParsedSetWellFormed(m);
      }
    case None =>
      if ParseComparison(term).Ok? {
        ParsedComparisonWellFormed(term);
      }
  }

  lemma {:induction false} ParsedTermsWellFormed(terms: seq<string>)
    requires ParseTerms(terms).Ok?
    ensures AllWellFormed(ParseTerms(terms).value)
  {
    hide ParseRequirement, WellFormed;
    if terms != [] {
      ParsedRequirementWellFormed(terms[0]);
      ParsedTermsWellFormed(terms[1..]);
    }
  }

  // Every parsed selector is well formed; in particular the printer never indexes an empty value list.
  lemma ParsedSelectorWellFormed(s: string)
    requires Parse(s).Ok?
    ensures AllWellFormed(Parse(s).value)
  {
    ParsedTermsWellFormed(SplitFrom(s, "", 0).value);
  }

  // ---- the pieces of the grammar, on text of label characters ----

  lemma PlainFacts(s: string)
    requires ValidValue(s)
    ensures Plain(s)
  {
  }

  lemma KeyFacts(k: string)
    requires ValidKey(k)
    ensures Plain(k) && k != ""
  {
  }

  lemma PlainExcludes(s: string)
    requires Plain(s)
    ensures NoReSpace(s)
    ensures '!' !in s && '=' !in s && '(' !in s && ')' !in s && ',' !in s && ' ' !in s && '\n' !in s
  {
  }

  lemma PlainIsTrimmed(s: string)
    requires Plain(s)
    ensures Trim(s) == s && Trimmed(s)
  {
    TrimIsProjection(s);
  }

  lemma {:induction false} NonSpaceRunIs(s: string, i: nat, j: nat)
    requires i <= j <= |s| && (forall k :: i <= k < j ==> !IsReSpace(s[k])) && (j < |s| ==> IsReSpace(s[j]))
    ensures NonSpaceRun(s, i) == j
    decreases j - i
  {
    if i < j {
      NonSpaceRunIs(s, i + 1, j);
    }
  }

  // A term with no white space is neither an `exists key` form nor a set.
  lemma NoSpaceParses(t: string)
    requires NoReSpace(t) && t != "" && t[0] != '!'
    ensures ParseRequirement(t) == ParseComparison(t)
  {
    hide ParseComparison, ParseSet, MatchSetBody;
    NonSpaceRunIs(t, 0, |t|);
    assert MatchSetTerm(t).None?;
    assert CutWord(t, "exists").None?;
  }

  lemma {:induction false} IndexAbsent(t: string, tok: string)
    requires tok != "" && tok[0] !in t
    ensures Index(t, tok).None?
  {
    if |t| >= |tok| {
      assert t[..|tok|][0] == t[0];
      IndexAbsent(t[1..], tok);
    }
  }

  lemma {:induction false} IndexAfter(pre: string, tok: string, post: string)
    requires tok != "" && tok[0] !in pre
    ensures Index(pre + tok + post, tok) == Some(|pre|)
  {
    var t := pre + tok + post;
    if pre == "" {
      assert t[..|tok|] == tok;
    } else {
      assert t[..|tok|][0] == pre[0];
      assert t[1..] == pre[1..] + tok + post;
      IndexAfter(pre[1..], tok, post);
    }
  }

  // "==" does not occur where the only equals sign is the one between the two halves.
  lemma {:induction false} NoDoubleEquals(pre: string, post: string)
    requires '=' !in pre && '=' !in post
    ensures Index(pre + "=" + post, "==").None?
  {
    var t := pre + "=" + post;
    if |t| >= 2 {
      assert t[..2][0] == t[0] && t[..2][1] == t[1];
      if pre == "" {
        assert t[1..] == post;
        IndexAbsent(post, "==");
      } else {
        assert t[1..] == pre[1..] + "=" + post;
        NoDoubleEquals(pre[1..], post);
      }
    }
  }

  // ---- a printed requirement parses to itself, unless it is ambiguous ----

  lemma ExistsParses(key: string)
    requires ValidKey(key)
    ensures ParseRequirement(key) == Ok(Requirement(key, Exists, []))
  {
    hide ParseRequirement, ValidKey, IsLabelChar, Index;
    KeyFacts(key);
    PlainExcludes(key);
    NoSpaceParses(key);
    IndexAbsent(key, "!=");
    IndexAbsent(key, "==");
    IndexAbsent(key, "=");
  }

  lemma NotExistsParses(key: string)
    requires ValidKey(key)
    ensures ParseRequirement("!" + key) == Ok(Requirement(key, NotExists, []))
  {
    hide ValidKey, IsLabelChar, Trim, CutWord, MatchSetTerm, ParseSet, ParseComparison;
    assert ("!" + key)[1..] == key;
    KeyFacts(key);
    PlainIsTrimmed(key);
  }

  lemma ComparisonCuts(key: string, tok: string, val: string, op: Operator)
    requires ValidKey(key) && ValidValue(val)
    ensures Comparison(key + tok + val, |key|, |tok|, op) == Ok(Requirement(key, op, [val]))
  {
    hide ValidKey, ValidValue, IsLabelChar, Trim;
    var t := key + tok + val;
    assert t[..|key|] == key && t[|key| + |tok|..] == val;
    KeyFacts(key);
    PlainFacts(val);
    PlainIsTrimmed(key);
    PlainIsTrimmed(val);
  }

  lemma ComparisonIsOneWord(key: string, tok: string, val: string)
    requires Plain(key) && key != "" && Plain(val) && tok in {"=", "!="}
    ensures ParseRequirement(key + tok + val) == ParseComparison(key + tok + val)
  {
    hide ParseRequirement, ParseComparison, IsLabelChar, Plain;
    PlainExcludes(key);
    PlainExcludes(val);
    var t := key + tok + val;
    assert t[0] == key[0];
    NoSpaceParses(t);
  }

  lemma EqualsParses(key: string, val: string)
    requires ValidKey(key) && ValidValue(val)
    ensures ParseRequirement(key + "=" + val) == Ok(Requirement(key, Equals, [val]))
  {
    hide ParseRequirement, ValidKey, ValidValue, Plain, Index, Comparison;
    var t := key + "=" + val;
    KeyFacts(key);
    PlainFacts(val);
    PlainExcludes(key);
    PlainExcludes(val);
    ComparisonIsOneWord(key, "=", val);
    assert '!' !in t;
    IndexAbsent(t, "!=");
    NoDoubleEquals(key, val);
    IndexAfter(key, "=", val);
    ComparisonCuts(key, "=", val, Equals);
  }

  lemma NotEqualsParses(key: string, val: string)
    requires ValidKey(key) && ValidValue(val)
    ensures ParseRequirement(key + "!=" + val) == Ok(Requirement(key, NotEquals, [val]))
  {
    hide ParseRequirement, ValidKey, ValidValue, Plain, Index, Comparison;
    KeyFacts(key);
    PlainFacts(val);
    PlainExcludes(key);
    ComparisonIsOneWord(key, "!=", val);
    IndexAfter(key, "!=", val);
    ComparisonCuts(key, "!=", val, NotEquals);
  }

  lemma {:induction false} SplitPlain(v: string)
    requires Plain(v)
    ensures SplitOnComma(v) == [v]
  {
    if v != "" {
      SplitPlain(v[1..]);
      assert [v[0]] + v[1..] == v;
    }
  }

  lemma {:induction false} SplitPlainThen(v: string, rest: string)
    requires Plain(v)
    ensures SplitOnComma(v + "," + rest) == [v] + SplitOnComma(rest)
  {
    var t := v + "," + rest;
    if v == "" {
      assert t[1..] == rest;
    } else {
      SplitPlainThen(v[1..], rest);
      assert t[1..] == v[1..] + "," + rest;
      assert [v[0]] + v[1..] == v;
    }
  }

  lemma {:induction false} JoinedValuesSplit(vs: seq<string>)
    requires |vs| > 0 && AllSetValues(vs)
    ensures SplitOnComma(Join(vs, ",")) == vs
  {
    hide ValidValue, Plain;
    assert SetValue(vs[0]);
    PlainFacts(vs[0]);
    if |vs| == 1 {
      SplitPlain(vs[0]);
    } else {
      JoinedValuesSplit(vs[1..]);
      SplitPlainThen(vs[0], Join(vs[1..], ","));
    }
  }

  lemma {:induction false} SetValuesAccepts(vs: seq<string>)
    requires AllSetValues(vs)
    ensures SetValues(vs) == Ok(vs)
  {
    hide ValidValue, Plain, Trim;
    if vs != [] {
      assert SetValue(vs[0]);
      PlainFacts(vs[0]);
      PlainIsTrimmed(vs[0]);
      SetValuesAccepts(vs[1..]);
      assert vs == [vs[0]] + vs[1..];
    }
  }

  predicate PlainOrComma(s: string) {
    forall i :: 0 <= i < |s| ==> IsLabelChar(s[i]) || s[i] == ','
  }

  lemma {:induction false} JoinedValuesPlain(vs: seq<string>)
    requires AllSetValues(vs)
    ensures PlainOrComma(Join(vs, ","))
  {
    hide ValidValue, IsLabelChar;
    if vs != [] {
      assert SetValue(vs[0]);
      PlainFacts(vs[0]);
      if |vs| > 1 {
        JoinedValuesPlain(vs[1..]);
      }
    }
  }

  lemma PlainOrCommaExcludes(s: string)
    requires PlainOrComma(s)
    ensures '(' !in s && ')' !in s && '\n' !in s
  {
  }

  lemma SetBodyMatches(t: string, key: string, op: Operator, from: nat, body: string)
    requires from + 2 + |body| + 1 == |t|
    requires t[from] == ' ' && t[from + 1] == '(' && t[from + 2..|t| - 1] == body && t[|t| - 1] == ')'
    requires '\n' !in body
    ensures MatchSetBody(t, key, op, from) == Some(SetTerm(key, op, body))
  {
    assert ReSpaceRun(t, from) == from + 1;
  }

  // The head of the term: key, one space, and the keyword at position |key| + 1.
  lemma SetHeadMatches(t: string, key: string, op: Operator, rest: string)
    requires NoReSpace(key) && key != "" && IsSetOp(op) && t == key + " " + OpText(op) + rest
    ensures MatchSetTerm(t) == MatchSetBody(t, key, op, |key| + 1 + |OpText(op)|)
  {
    hide MatchSetBody;
    var w, i, j := OpText(op), |key|, |key| + 1;
    assert t[i] == ' ' && t[..i] == key && t[j] == w[0];
    NonSpaceRunIs(t, 0, i);
    assert ReSpaceRun(t, i) == j;
    assert t[j..] == w + rest;
    assert t[j..][0] == w[0];
  }

  // A printed set is cut back into its key, operator and body.
  lemma SetTermMatches(key: string, op: Operator, body: string)
    requires NoReSpace(key) && key != "" && IsSetOp(op) && '\n' !in body
    ensures MatchSetTerm(key + " " + OpText(op) + " (" + body + ")") == Some(SetTerm(key, op, body))
  {
    hide MatchSetTerm, MatchSetBody, NoReSpace;
    var w, rest := OpText(op), " (" + body + ")";
    var t := key + " " + w + " (" + body + ")";
    assert t == key + " " + w + rest;
    SetHeadMatches(t, key, op, rest);
    SetBodyMatches(t, key, op, |key| + 1 + |w|, body);
  }

  // The first white space of a printed set is the one after its key.
  lemma FirstSpaceAfterKey(t: string, key: string)
    requires NoReSpace(key) && |key| < |t| && t[..|key|] == key && t[|key|] == ' ' && key != "exists"
    ensures CutWord(t, "exists").None?
  {
    var w := "exists";
    assert forall i :: 0 <= i < |key| ==> t[i] == key[i];
    if |key| == 6 {
      assert t[..6] == key;
    } else if |key| < 6 && |t| >= 6 {
      assert t[..6][|key|] == ' ' != w[|key|];
    }
  }

  lemma SetBodyParses(key: string, op: Operator, vs: seq<string>)
    requires ValidKey(key) && |vs| > 0 && AllSetValues(vs)
    ensures ParseSet(SetTerm(key, op, Join(vs, ","))) == Ok(Requirement(key, op, vs))
  {
    hide ValidKey, Join, AllSetValues;
    JoinedValuesSplit(vs);
    SetValuesAccepts(vs);
  }

  // A term that starts with a plain key other than `exists` and a space is neither of the two word forms.
  lemma NoWordForm(t: string, key: string)
    requires Plain(key) && key != "" && key != "exists" && |key| < |t| && t[..|key|] == key && t[|key|] == ' '
    ensures !("!" <= t) && CutWord(t, "exists").None?
  {
    hide Plain, CutWord;
    PlainExcludes(key);
    FirstSpaceAfterKey(t, key);
    assert t[0] == key[0];
  }

  lemma SetParses(key: string, op: Operator, vs: seq<string>)
    requires ValidKey(key) && IsSetOp(op) && |vs| > 0 && AllSetValues(vs) && key != "exists"
    ensures ParseRequirement(key + " " + OpText(op) + " (" + Join(vs, ",") + ")") == Ok(Requirement(key, op, vs))
  {
    hide ValidKey, Plain, NoReSpace, MatchSetTerm, CutWord, ParseComparison, ParseSet, KeyOnly, Join, AllSetValues,
         PlainOrComma, Trim, OpText;
    var body := Join(vs, ",");
    var t := key + " " + OpText(op) + " (" + body + ")";
    KeyFacts(key);
    PlainExcludes(key);
    JoinedValuesPlain(vs);
    PlainOrCommaExcludes(body);
    SetTermMatches(key, op, body);
    SetBodyParses(key, op, vs);
    NoWordForm(t, key);
  }

  lemma TrimKeepsLast(u: string)
    requires u != "" && !IsSpace(u[0]) && !IsSpace(u[|u| - 1])
    ensures Trim(" " + u) == u
  {
    var s := " " + u;
    assert s[1..] == u;
    assert TrimLeft(s) == TrimLeft(u) == u;
  }

  // The ambiguous spelling reads back as an `exists` test of a key that is not a key.
  lemma AmbiguousFails(op: Operator, body: string)
    requires IsSetOp(op)
    ensures ParseRequirement("exists " + OpText(op) + " (" + body + ")") == Err(BadKey)
  {
    hide MatchSetTerm, ParseSet, ParseComparison, Trim;
    var u := OpText(op) + " (" + body + ")";
    var t := "exists " + OpText(op) + " (" + body + ")";
    assert t[6..] == " " + u;
    assert t[..6] == "exists" && t[6] == ' ' && t[0] == 'e';
    assert u[|u| - 1] == ')' && u[0] == OpText(op)[0];
    TrimKeepsLast(u);
  }

  // For every well-formed requirement: it survives printing exactly when it is not ambiguous.
  lemma RequirementRoundTrip(r: Requirement)
    requires WellFormed(r)
    ensures ParseRequirement(PrintRequirement(r)) == Ok(r) <==> !Ambiguous(r)
  {
    hide ParseRequirement, ValidKey, ValidValue, AllSetValues;
    match r.op
    case Exists => ExistsParses(r.key);
    case NotExists => NotExistsParses(r.key);
    case Equals =>
      EqualsParses(r.key, r.values[0]);
      assert r.values == [r.values[0]];
    case NotEquals =>
      NotEqualsParses(r.key, r.values[0]);
      assert r.values == [r.values[0]];
    case In | NotIn =>
      if Ambiguous(r) {
        AmbiguousFails(r.op, Join(r.values, ","));
        assert "exists" + " " == "exists ";
      } else {
        SetParses(r.key, r.op, r.values);
      }
  }

  // ---- printed terms are split apart where they were joined ----

  // Text without parentheses, and without commas at depth 0, only extends the term being read.
  lemma {:induction false} ConsumeText(t: string, rest: string, buf: string, depth: int)
    requires depth >= 0 && '(' !in t && ')' !in t && (depth > 0 || ',' !in t)
    ensures SplitFrom(t + rest, buf, depth) == SplitFrom(rest, buf + t, depth)
  {
    if t == "" {
      assert t + rest == rest && buf + t == buf;
    } else {
      assert (t + rest)[0] == t[0] && (t + rest)[1..] == t[1..] + rest;
      ConsumeText(t[1..], rest, buf + [t[0]], depth);
      assert buf + [t[0]] + t[1..] == buf + t;
    }
  }

  lemma ConsumeParen(c: char, rest: string, buf: string, depth: int)
    requires (c == '(' && depth >= 0) || (c == ')' && depth > 0)
    ensures SplitFrom([c] + rest, buf, depth) == SplitFrom(rest, buf + [c], depth + if c == '(' then 1 else -1)
  {
    assert ([c] + rest)[1..] == rest;
  }

  lemma ConsumeSet(head: string, body: string, rest: string)
    requires '(' !in head && ')' !in head && ',' !in head && PlainOrComma(body)
    ensures SplitFrom(head + "(" + body + ")" + rest, "", 0) == SplitFrom(rest, head + "(" + body + ")", 0)
  {
    var tail := ")" + rest;
    assert head + "(" + body + ")" + rest == head + ("(" + (body + tail));
    ConsumeText(head, "(" + (body + tail), "", 0);
    assert "" + head == head;
    ConsumeParen('(', body + tail, head, 0);
    ConsumeText(body, tail, head + "(", 1);
    ConsumeParen(')', rest, head + "(" + body, 1);
  }

  // A printed requirement is read as one term, whatever follows it.
  lemma ConsumeRequirement(r: Requirement, rest: string)
    requires WellFormed(r)
    ensures SplitFrom(PrintRequirement(r) + rest, "", 0) == SplitFrom(rest, PrintRequirement(r), 0)
  {
    hide ValidKey, ValidValue, Plain, PlainOrComma, AllSetValues, SplitFrom;
    var t := PrintRequirement(r);
    KeyFacts(r.key);
    PlainExcludes(r.key);
    match r.op
    case In | NotIn =>
      var head := r.key + " " + OpText(r.op) + " ";
      JoinedValuesPlain(r.values);
      ConsumeSet(head, Join(r.values, ","), rest);
      assert t == head + "(" + Join(r.values, ",") + ")";
    case Equals | NotEquals =>
      PlainFacts(r.values[0]);
      PlainExcludes(r.values[0]);
      ConsumeText(t, rest, "", 0);
      assert "" + t == t;
    case Exists | NotExists =>
      ConsumeText(t, rest, "", 0);
      assert "" + t == t;
  }

  lemma PrintedIsTrimmed(r: Requirement)
    requires WellFormed(r)
    ensures Flushed(PrintRequirement(r)) == [PrintRequirement(r)]
  {
    hide ValidKey, ValidValue, AllSetValues, Trim, Join;
    var t := PrintRequirement(r);
    KeyFacts(r.key);
    PlainIsTrimmed(r.key);
    match r.op {
      case In | NotIn =>
        assert t[0] == r.key[0] && t[|t| - 1] == ')';
      case Equals | NotEquals =>
        var v := r.values[0];
        PlainFacts(v);
        PlainIsTrimmed(v);
        assert t[0] == r.key[0] && t[|t| - 1] == if v == "" then '=' else v[|v| - 1];
      case Exists | NotExists =>
        assert t[|t| - 1] == r.key[|r.key| - 1];
    }
    TrimIsProjection(t);
  }

  lemma {:induction false} SplitPrinted(sel: Selector)
    requires AllWellFormed(sel)
    ensures SplitFrom(Print(sel), "", 0) == Ok(PrintAll(sel))
  {
    hide WellFormed, PrintRequirement;
    if sel != [] {
      assert WellFormed(sel[0]);
      var t := PrintRequirement(sel[0]);
      PrintedIsTrimmed(sel[0]);
      SplitPrinted(sel[1..]);
      if |sel| == 1 {
        ConsumeRequirement(sel[0], "");
        assert t + "" == t;
        assert PrintAll(sel) == [t];
      } else {
        var more := Print(sel[1..]);
        ConsumeRequirement(sel[0], "," + more);
        PrintCons(sel);
        assert ("," + more)[1..] == more;
      }
    }
  }

  lemma PrintCons(sel: Selector)
    requires Printable(sel) && |sel| > 1
    ensures Print(sel) == PrintRequirement(sel[0]) + ("," + Print(sel[1..]))
  {
    assert PrintAll(sel)[1..] == PrintAll(sel[1..]);
  }

  lemma TermsCons(r: Requirement, rest: Selector)
    requires HasArity(r) && Printable(rest)
    ensures ParseTerms([PrintRequirement(r)] + PrintAll(rest)) ==
            match ParseRequirement(PrintRequirement(r))
            case Err(e) => Err(e)
            case Ok(q) => Prepend([q], ParseTerms(PrintAll(rest)))
  {
    var terms := [PrintRequirement(r)] + PrintAll(rest);
    assert terms[1..] == PrintAll(rest);
  }

  lemma {:induction false} TermsRoundTrip(sel: Selector)
    requires AllWellFormed(sel)
    ensures ParseTerms(PrintAll(sel)) == Ok(sel) <==> forall r :: r in sel ==> !Ambiguous(r)
  {
    hide ParseRequirement, PrintRequirement, WellFormed, Ambiguous;
    if sel != [] {
      var r, rest := sel[0], sel[1..];
      assert WellFormed(r);
      RequirementRoundTrip(r);
      TermsRoundTrip(rest);
      TermsCons(r, rest);
      assert sel == [r] + rest;
      if ParseTerms(PrintAll(sel)) == Ok(sel) {
        var q, tail := ParseRequirement(PrintRequirement(r)).value, ParseTerms(PrintAll(rest)).value;
        assert [q] + tail == sel;
        assert sel[0] == q && sel[1..] == tail;
      }
    }
  }

  // For every selector a caller can build: printing then parsing gives it back exactly when the parser could
  // have produced it at all (every requirement well formed) and no requirement is ambiguous.
  lemma SelectorRoundTrip(sel: Selector)
    requires Printable(sel)
    ensures Parse(Print(sel)) == Ok(sel) <==> AllWellFormed(sel) && forall r :: r in sel ==> !Ambiguous(r)
  {
    if Parse(Print(sel)) == Ok(sel) {
      ParsedSelectorWellFormed(Print(sel));
    }
    if AllWellFormed(sel) {
      SplitPrinted(sel);
      TermsRoundTrip(sel);
    }
  }

  // For every text that parses: the printed selector parses back to itself exactly when the selector
  // holds no set over the key `exists`.
  lemma ParsedTextRoundTrip(s: string)
    requires Parse(s).Ok?
    ensures Printable(Parse(s).value)
    ensures Parse(Print(Parse(s).value)) == Parse(s) <==> forall r :: r in Parse(s).value ==> !Ambiguous(r)
  {
    ParsedSelectorWellFormed(s);
    SelectorRoundTrip(Parse(s).value);
  }

  // ---- when it fails ----

  function FormFeed(): char {
    12 as char
  }

  // The separator after `exists` is a form feed, which the set pattern takes as white space and the
  // `exists key` test does not.
  function FormFeedText(): string {
    "exists" + [FormFeed()] + "in (a)"
  }

  function FormFeedSet(): Requirement {
    Requirement("exists", In, ["a"])
  }

  lemma FormFeedSplits()
    ensures SplitFrom(FormFeedText(), "", 0) == Ok([FormFeedText()])
  {
    hide SplitFrom, Trim;
    var s, head := FormFeedText(), "exists" + [FormFeed()] + "in ";
    assert s == head + "(" + "a" + ")" + "" == head + "(" + "a" + ")";
    ConsumeSet(head, "a", "");
    assert SplitFrom("", s, 0) == Ok(Flushed(s)) by {
      SplitEnd(s);
    }
    assert s[0] == 'e' && s[|s| - 1] == ')';
    TrimIsProjection(s);
  }

  lemma SplitEnd(buf: string)
    ensures SplitFrom("", buf, 0) == Ok(Flushed(buf))
  {
  }

  lemma FormFeedMatches()
    ensures MatchSetTerm(FormFeedText()) == Some(SetTerm("exists", In, "a"))
  {
    hide MatchSetBody, NonSpaceRun;
    var s := FormFeedText();
    assert s == "exists" + ([FormFeed()] + ("in" + " (a)"));
    NonSpaceRunIs(s, 0, 6);
    assert ReSpaceRun(s, 6) == 7;
    assert s[7..] == "in" + " (a)" && s[..6] == "exists";
    SetBodyMatches(s, "exists", In, 9, "a");
  }

  lemma FormFeedIsNoWord()
    ensures CutWord(FormFeedText(), "exists").None? && !("!" <= FormFeedText())
  {
    assert FormFeedText()[0] == 'e' && FormFeedText()[6] == FormFeed();
  }

  lemma FormFeedParses()
    ensures ParseRequirement(FormFeedText()) == Ok(FormFeedSet())
  {
    hide FormFeedText, CutWord, MatchSetTerm, ParseComparison, SplitOnComma, SetValues;
    FormFeedMatches();
    FormFeedIsNoWord();
    assert Join(["a"], ",") == "a" && SetValue("a");
    JoinedValuesSplit(["a"]);
    SetValuesAccepts(["a"]);
  }

  // A concrete text that parses although what it prints as does not.
  lemma FormFeedBreaksRoundTrip()
    ensures Parse(FormFeedText()) == Ok([FormFeedSet()]) && Printable([FormFeedSet()])
    ensures Parse(Print([FormFeedSet()])) != Ok([FormFeedSet()])
  {
    hide FormFeedText, ParseRequirement, SplitFrom;
    var s, r := FormFeedText(), FormFeedSet();
    FormFeedSplits();
    FormFeedParses();
    assert [s][1..] == [] && [r] + [] == [r];
    assert r in [r] && Ambiguous(r);
    ParsedTextRoundTrip(s);
  }

  // The terms of a text hold only its own characters.
  lemma {:induction false} TermCharacters(s: string, buf: string, depth: int, c: char)
    requires SplitFrom(s, buf, depth).Ok? && c !in s && c !in buf
    ensures forall t :: t in SplitFrom(s, buf, depth).value ==> c !in t
  {
    hide Trim;
    TrimCharacters(buf, c);
    if s != "" {
      var d, rest := s[0], s[1..];
      if d == '(' {
        TermCharacters(rest, buf + [d], depth + 1, c);
      } else if d == ')' {
        TermCharacters(rest, buf + [d], depth - 1, c);
      } else if d == ',' && depth == 0 {
        TermCharacters(rest, "", 0, c);
      } else {
        TermCharacters(rest, buf + [d], depth, c);
      }
    }
  }

  lemma TrimCharacters(s: string, c: char)
    requires c !in s
    ensures c !in Trim(s)
  {
  }

  lemma MatchedKey(t: string)
    requires MatchSetTerm(t).Some?
    ensures var k := MatchSetTerm(t).value.key; k <= t && |k| < |t| && IsReSpace(t[|k|])
  {
    hide MatchSetBody;
    MatchedBodyKey(t);
    var i := NonSpaceRun(t, 0);
    assert ReSpaceRun(t, i) > i;
  }

  lemma MatchedBodyKey(t: string)
    requires MatchSetTerm(t).Some?
    ensures MatchSetTerm(t).value.key == t[..NonSpaceRun(t, 0)]
  {
  }

  lemma UnambiguousTerm(t: string)
    requires FormFeed() !in t && ParseRequirement(t).Ok?
    ensures !Ambiguous(ParseRequirement(t).value)
  {
    hide ValidKey, Trim, MatchSetTerm, SplitOnComma, SetValues, ParseComparison;
    if MatchSetTerm(t).Some? {
      MatchedKey(t);
    } else if ParseComparison(t).Ok? {
      ParsedComparisonIsNoSet(t);
    }
  }

  lemma ParsedComparisonIsNoSet(t: string)
    requires ParseComparison(t).Ok?
    ensures !IsSetOp(ParseComparison(t).value.op)
  {
    hide ValidKey, ValidValue, Trim, Index;
  }

  lemma {:induction false} UnambiguousTerms(terms: seq<string>)
    requires (forall t :: t in terms ==> FormFeed() !in t) && ParseTerms(terms).Ok?
    ensures forall r :: r in ParseTerms(terms).value ==> !Ambiguous(r)
  {
    hide ParseRequirement;
    if terms != [] {
      UnambiguousTerm(terms[0]);
      UnambiguousTerms(terms[1..]);
    }
  }

  // For every text without a form feed: if it parses, printing and parsing again gives the same selector.
  lemma FormFeedFreeRoundTrip(s: string)
    requires Parse(s).Ok? && FormFeed() !in s
    ensures Printable(Parse(s).value) && Parse(Print(Parse(s).value)) == Parse(s)
  {
    hide ParseTerms;
    TermCharacters(s, "", 0, FormFeed());
    UnambiguousTerms(SplitFrom(s, "", 0).value);
    ParsedTextRoundTrip(s);
  }
}
