/**
 What a selector's spellings mean (go/agentdb/labels.go): every way to write a requirement, with its white space,
 and the proof that the parser reads each as what it says.
 */
module LabelsGrammar {
  import opened Text
  import opened Labels
  import opened LabelsRoundTrip

  // ---- the grammar ----

  // One value of a set, with the white space around it.
  datatype Item = Item(left: string, value: string, right: string)

  datatype Spelling =
    | Compared(key: string, gap1: string, token: string, gap2: string, value: string)  // key = value
    | Bare(key: string)                                                                // key
    | Asked(gap: string, key: string)                                                  // exists key
    | Negated(gap: string, key: string)                                                // !key
    | Listed(key: string, gap1: string, word: string, gap2: string, items: seq<Item>)  // key in (value, value)

  // White space as the set pattern knows it.
  predicate ReGap(w: string) {
    forall i :: 0 <= i < |w| ==> IsReSpace(w[i])
  }

  predicate ItemOk(i: Item) {
    SetValue(i.value) && Blank(i.left) && Blank(i.right) && '\n' !in i.left && '\n' !in i.right
  }

  predicate ItemsOk(items: seq<Item>) {
    forall i :: 0 <= i < |items| ==> ItemOk(items[i])
  }

  predicate Spelled(s: Spelling) {
    match s
    case Compared(key, gap1, token, gap2, value) =>
      ValidKey(key) && ValidValue(value) && token in {"=", "==", "!="} && Blank(gap1) && Blank(gap2) &&
      (value == "" ==> gap2 == "")
    case Bare(key) => ValidKey(key)
    case Asked(gap, key) => ValidKey(key) && Blank(gap) && gap != "" && IsWordSpace(gap[0])
    case Negated(gap, key) => ValidKey(key) && Blank(gap)
    case Listed(key, gap1, word, gap2, items) =>
      ValidKey(key) && word in {"in", "notin"} && ReGap(gap1) && gap1 != "" && ReGap(gap2) &&
      items != [] && ItemsOk(items)
  }

  function ItemText(i: Item): string {
    i.left + i.value + i.right
  }

  function ItemTexts(items: seq<Item>): seq<string> {
    if items == [] then [] else [ItemText(items[0])] + ItemTexts(items[1..])
  }

  function ItemValues(items: seq<Item>): seq<string> {
    if items == [] then [] else [items[0].value] + ItemValues(items[1..])
  }

  function Spell(s: Spelling): string {
    match s
    case Compared(key, gap1, token, gap2, value) => key + gap1 + token + gap2 + value
    case Bare(key) => key
    case Asked(gap, key) => "exists" + gap + key
    case Negated(gap, key) => "!" + gap + key
    case Listed(key, gap1, word, gap2, items) =>
      key + gap1 + word + gap2 + "(" + Join(ItemTexts(items), ",") + ")"
  }

  function Meaning(s: Spelling): Requirement {
    match s
    case Compared(key, _, token, _, value) => Requirement(key, if token == "!=" then NotEquals else Equals, [value])
    case Bare(key) => Requirement(key, Exists, [])
    case Asked(_, key) => Requirement(key, Exists, [])
    case Negated(_, key) => Requirement(key, NotExists, [])
    case Listed(key, _, word, _, items) => Requirement(key, if word == "in" then In else NotIn, ItemValues(items))
  }

  // The key `exists` before a word's white space: the rest is taken for the key of an `exists key` spelling.
  predicate Clash(s: Spelling) {
    (s.Compared? || s.Listed?) && s.key == "exists" && s.gap1 != "" && IsWordSpace(s.gap1[0])
  }

  // ---- text with white space around it ----

  lemma BlankExcludes(w: string)
    requires Blank(w)
    ensures '(' !in w && ')' !in w && ',' !in w && '=' !in w && '!' !in w
  {
  }

  lemma ReGapIsBlank(w: string)
    requires ReGap(w)
    ensures Blank(w)
  {
  }

  lemma {:induction false} TrimLeftGap(l: string, m: string)
    requires Blank(l) && m != "" && !IsSpace(m[0])
    ensures TrimLeft(l + m) == m
  {
    hide IsSpace;
    if l == "" {
      assert l + m == m;
    } else {
      assert (l + m)[1..] == l[1..] + m;
      TrimLeftGap(l[1..], m);
    }
  }

  lemma {:induction false} TrimRightGap(m: string, r: string)
    requires Blank(r) && (m == "" || !IsSpace(m[|m| - 1]))
    ensures TrimRight(m + r) == m
  {
    hide IsSpace;
    if r == "" {
      assert m + r == m;
    } else {
      assert (m + r)[..|m + r| - 1] == m + r[..|r| - 1];
      TrimRightGap(m, r[..|r| - 1]);
    }
  }

  lemma TrimGaps(l: string, m: string, r: string)
    requires Blank(l) && Blank(r) && Trimmed(m)
    ensures Trim(l + m + r) == m
  {
    hide IsSpace, Blank;
    if m == "" {
      BlankJoins(l, r);
      assert l + m + r == l + r;
      TrimBlank(l + r);
    } else {
      assert l + m + r == l + (m + r);
      TrimLeftGap(l, m + r);
      TrimRightGap(m, r);
    }
  }

  lemma BlankJoins(l: string, r: string)
    requires Blank(l) && Blank(r)
    ensures Blank(l + r)
  {
  }

  lemma {:induction false} LeftIsBlank(s: string)
    ensures forall i :: 0 <= i < |s| - |TrimLeft(s)| ==> IsSpace(s[i])
  {
    hide IsSpace;
    if s != "" && IsSpace(s[0]) {
      LeftIsBlank(s[1..]);
      assert forall i :: 0 < i < |s| ==> s[i] == s[1..][i - 1];
    }
  }

  lemma {:induction false} RightIsBlank(s: string)
    ensures forall i :: |TrimRight(s)| <= i < |s| ==> IsSpace(s[i])
  {
    hide IsSpace;
    if s != "" && IsSpace(s[|s| - 1]) {
      RightIsBlank(s[..|s| - 1]);
      assert forall i :: 0 <= i < |s| - 1 ==> s[i] == s[..|s| - 1][i];
    }
  }

  lemma LeftGap(s: string) returns (l: string)
    ensures s == l + TrimLeft(s) && Blank(l)
  {
    hide IsSpace;
    var k := |s| - |TrimLeft(s)|;
    l := s[..k];
    LeftIsBlank(s);
    hide TrimLeft;
  }

  lemma RightGap(s: string) returns (r: string)
    ensures s == TrimRight(s) + r && Blank(r)
  {
    hide IsSpace;
    var k := |TrimRight(s)|;
    r := s[k..];
    RightIsBlank(s);
    hide TrimRight;
    assert s[..k] == TrimRight(s);
  }

  // What trimming took away.
  lemma Gaps(s: string) returns (l: string, r: string)
    ensures s == l + Trim(s) + r && Blank(l) && Blank(r)
  {
    hide Blank, TrimLeft, TrimRight;
    l := LeftGap(s);
    r := RightGap(TrimLeft(s));
    assert l + (Trim(s) + r) == l + Trim(s) + r;
  }

  lemma KeyIsTrimmed(k: string)
    requires ValidKey(k)
    ensures k != "" && Trimmed(k) && Trim(k) == k && k[0] != '!'
  {
    KeyFacts(k);
    PlainIsTrimmed(k);
  }

  lemma ValueIsTrimmed(v: string)
    requires ValidValue(v)
    ensures Trimmed(v)
  {
    PlainFacts(v);
    PlainIsTrimmed(v);
  }

  // ---- each spelling parses to its meaning ----

  // Text without a parenthesis is no set.
  lemma NoParenNoSet(t: string)
    requires '(' !in t
    ensures MatchSetTerm(t) == None
  {
    hide ReSpaceRun, NonSpaceRun;
  }

  lemma WordFormIs(t: string, key: string, rest: string)
    requires ValidKey(key) && t == key + rest && rest != "" && !IsLabelChar(rest[0])
    ensures !("!" <= t)
    ensures CutWord(t, "exists") == if key == "exists" && IsWordSpace(rest[0]) then Some(rest) else None
  {
    hide ValidKey;
    var w := "exists";
    KeyIsTrimmed(key);
    KeyFacts(key);
    assert t[0] == key[0];
    assert forall i :: 0 <= i < |key| ==> t[i] == key[i];
    assert t[|key|] == rest[0] && t[|key|..] == rest;
    assert forall i :: 0 <= i < 6 ==> IsLabelChar(w[i]);
    assert w <= t ==> |key| >= 6 && key[..6] == w;
    assert w <= t && key != w ==> |key| > 6 && IsLabelChar(t[6]);
  }

  lemma ClashFails(t: string, rest: string, gap: string, u: string)
    requires CutWord(t, "exists") == Some(rest) && !("!" <= t) && rest == gap + u && Blank(gap)
    requires u != "" && !IsSpace(u[0]) && !IsAlnum(u[0])
    ensures ParseRequirement(t) == Err(BadKey)
  {
    hide CutWord, Blank, TrimLeft;
    TrimLeftGap(gap, u);
    TrimRightKeepsHead(u);
  }

  lemma {:induction false} TrimRightKeepsHead(u: string)
    requires u != "" && !IsSpace(u[0])
    ensures TrimRight(u) != "" && TrimRight(u)[0] == u[0]
  {
    hide IsSpace;
    if IsSpace(u[|u| - 1]) {
      TrimRightKeepsHead(u[..|u| - 1]);
    }
  }

  predicate NoSigns(s: string) {
    '=' !in s && '!' !in s && '(' !in s
  }

  lemma KeyGapNoSigns(key: string, gap: string)
    requires ValidKey(key) && Blank(gap)
    ensures NoSigns(key + gap)
  {
    hide ValidKey, Blank;
    KeyFacts(key);
    PlainExcludes(key);
    BlankExcludes(gap);
  }

  lemma ValueGapNoSigns(gap: string, value: string)
    requires ValidValue(value) && Blank(gap)
    ensures NoSigns(gap + value)
  {
    hide ValidValue, Blank;
    PlainFacts(value);
    PlainExcludes(value);
    BlankExcludes(gap);
  }

  // Where the first operator is found.
  lemma OperatorFound(pre: string, token: string, post: string)
    requires NoSigns(pre) && NoSigns(post) && token in {"=", "==", "!="}
    ensures ParseComparison(pre + token + post) ==
            Comparison(pre + token + post, |pre|, |token|, if token == "!=" then NotEquals else Equals)
  {
    hide Index, Comparison;
    var t := pre + token + post;
    if token == "!=" {
      IndexAfter(pre, "!=", post);
    } else {
      assert '!' !in t;
      IndexAbsent(t, "!=");
      if token == "==" {
        IndexAfter(pre, "==", post);
      } else {
        NoDoubleEquals(pre, post);
        IndexAfter(pre, "=", post);
      }
    }
  }

  lemma ComparisonTrims(key: string, gap1: string, token: string, gap2: string, value: string, op: Operator)
    requires ValidKey(key) && ValidValue(value) && Blank(gap1) && Blank(gap2)
    ensures var t := key + gap1 + token + gap2 + value;
            |key + gap1| + |token| <= |t| &&
            Comparison(t, |key + gap1|, |token|, op) == Ok(Requirement(key, op, [value]))
  {
    hide ValidKey, ValidValue, Blank, Trim;
    var t := key + gap1 + token + gap2 + value;
    assert t[..|key + gap1|] == "" + key + gap1;
    assert t[|key + gap1| + |token|..] == gap2 + value + "";
    KeyIsTrimmed(key);
    ValueIsTrimmed(value);
    NothingIsBlank();
    TrimGaps("", key, gap1);
    TrimGaps(gap2, value, "");
  }

  lemma NothingIsBlank()
    ensures Blank("")
  {
  }

  lemma ComparedWords(s: Spelling)
    requires s.Compared? && Spelled(s)
    ensures var rest := s.gap1 + (s.token + s.gap2 + s.value);
            !("!" <= Spell(s)) && CutWord(Spell(s), "exists") == if Clash(s) then Some(rest) else None
  {
    hide ValidKey, ValidValue, Blank, CutWord;
    var rest := s.gap1 + (s.token + s.gap2 + s.value);
    assert Spell(s) == s.key + rest;
    GapStart(s.gap1, s.token);
    assert s.gap1 + s.token <= rest && rest[0] == (s.gap1 + s.token)[0];
    WordFormIs(Spell(s), s.key, rest);
  }

  lemma ComparedCompares(s: Spelling)
    requires s.Compared? && Spelled(s)
    ensures MatchSetTerm(Spell(s)) == None && ParseComparison(Spell(s)) == Ok(Meaning(s))
  {
    hide ValidKey, ValidValue, Blank, Comparison, ParseComparison, NoSigns, MatchSetTerm;
    var pre, post := s.key + s.gap1, s.gap2 + s.value;
    KeyGapNoSigns(s.key, s.gap1);
    ValueGapNoSigns(s.gap2, s.value);
    assert Spell(s) == pre + s.token + post;
    NoSignsNoParen(pre, s.token, post);
    NoParenNoSet(Spell(s));
    OperatorFound(pre, s.token, post);
    ComparisonTrims(s.key, s.gap1, s.token, s.gap2, s.value, if s.token == "!=" then NotEquals else Equals);
  }

  lemma ComparedMeans(s: Spelling)
    requires s.Compared? && Spelled(s)
    ensures ParseRequirement(Spell(s)) == if Clash(s) then Err(BadKey) else Ok(Meaning(s))
  {
    hide ValidKey, ValidValue, Blank, ParseComparison, MatchSetTerm, CutWord, Spell, Trim;
    ComparedWords(s);
    if Clash(s) {
      var u := s.token + s.gap2 + s.value;
      GapStart(s.gap1, s.token);
      assert u[0] == s.token[0];
      ClashFails(Spell(s), s.gap1 + u, s.gap1, u);
    } else {
      ComparedCompares(s);
    }
  }

  // After the key comes white space or a sign.
  lemma GapStart(gap: string, token: string)
    requires Blank(gap) && token in {"=", "==", "!="}
    ensures var u := gap + token;
            u != "" && !IsLabelChar(u[0]) && (IsWordSpace(u[0]) <==> gap != "" && IsWordSpace(gap[0])) &&
            !IsSpace(token[0]) && !IsAlnum(token[0])
  {
    assert gap != "" ==> IsSpace(gap[0]);
  }

  lemma NoSignsNoParen(pre: string, token: string, post: string)
    requires NoSigns(pre) && NoSigns(post) && token in {"=", "==", "!="}
    ensures '(' !in pre + token + post
  {
  }

  lemma AskedMeans(s: Spelling)
    requires s.Asked? && Spelled(s)
    ensures ParseRequirement(Spell(s)) == Ok(Meaning(s))
  {
    hide ValidKey, Trim, MatchSetTerm, ParseComparison, ParseSet;
    var t, rest := Spell(s), s.gap + s.key;
    assert t == "exists" + rest && t[6..] == rest && t[..6] == "exists" && t[6] == s.gap[0] && t[0] == 'e';
    KeyIsTrimmed(s.key);
    TrimGaps(s.gap, s.key, "");
    assert s.gap + s.key + "" == rest;
  }

  lemma NegatedMeans(s: Spelling)
    requires s.Negated? && Spelled(s)
    ensures ParseRequirement(Spell(s)) == Ok(Meaning(s))
  {
    hide ValidKey, Trim, MatchSetTerm, ParseComparison, ParseSet, CutWord;
    var t := Spell(s);
    assert t[1..] == s.gap + s.key + "";
    KeyIsTrimmed(s.key);
    TrimGaps(s.gap, s.key, "");
  }

  // ---- sets ----

  lemma {:induction false} ReSpaceRunIs(s: string, i: nat, j: nat)
    requires i <= j <= |s| && (forall k :: i <= k < j ==> IsReSpace(s[k])) && (j < |s| ==> !IsReSpace(s[j]))
    ensures ReSpaceRun(s, i) == j
    decreases j - i
  {
    if i < j {
      ReSpaceRunIs(s, i + 1, j);
    }
  }

  lemma ListedHead(t: string, key: string, gap1: string, word: string, tail: string)
    requires ValidKey(key) && ReGap(gap1) && gap1 != "" && word in {"in", "notin"}
    requires t == key + gap1 + word + tail
    ensures |key + gap1 + word| <= |t|
    ensures MatchSetTerm(t) == MatchSetBody(t, key, if word == "in" then In else NotIn, |key + gap1 + word|)
  {
    hide MatchSetBody, ValidKey;
    KeyFacts(key);
    PlainExcludes(key);
    var i, j := |key|, |key + gap1|;
    assert t[i] == gap1[0] && t[..i] == key;
    NonSpaceRunIs(t, 0, i);
    assert forall k :: i <= k < j ==> t[k] == gap1[k - i];
    assert t[j..] == word + tail && t[j] == word[0];
    ReSpaceRunIs(t, i, j);
    assert t[j..][0] == word[0];
  }

  lemma ListedBody(t: string, key: string, op: Operator, head: string, gap2: string, body: string)
    requires ReGap(gap2) && t == head + gap2 + "(" + body + ")" && '\n' !in body
    ensures |head| <= |t| && MatchSetBody(t, key, op, |head|) == Some(SetTerm(key, op, body))
  {
    var k := |head + gap2|;
    assert t[k] == '(' && forall i :: |head| <= i < k ==> t[i] == gap2[i - |head|];
    ReSpaceRunIs(t, |head|, k);
    assert t[k + 1..|t| - 1] == body && t[|t| - 1] == ')';
  }

  lemma {:induction false} SplitOne(v: string)
    requires ',' !in v
    ensures SplitOnComma(v) == [v]
  {
    if v != "" {
      SplitOne(v[1..]);
      assert [v[0]] + v[1..] == v;
    }
  }

  lemma {:induction false} SplitThen(v: string, rest: string)
    requires ',' !in v
    ensures SplitOnComma(v + "," + rest) == [v] + SplitOnComma(rest)
  {
    var t := v + "," + rest;
    if v == "" {
      assert t[1..] == rest;
    } else {
      SplitThen(v[1..], rest);
      assert t[1..] == v[1..] + "," + rest;
      assert [v[0]] + v[1..] == v;
    }
  }

  lemma ItemFacts(i: Item)
    requires ItemOk(i)
    ensures ',' !in ItemText(i) && '(' !in ItemText(i) && ')' !in ItemText(i) && '\n' !in ItemText(i)
    ensures Trim(ItemText(i)) == i.value && ValidValue(i.value) && i.value != ""
  {
    hide ValidValue, Blank, Trim;
    PlainFacts(i.value);
    PlainExcludes(i.value);
    BlankExcludes(i.left);
    BlankExcludes(i.right);
    ValueIsTrimmed(i.value);
    TrimGaps(i.left, i.value, i.right);
  }

  lemma {:induction false} ItemsSplit(items: seq<Item>)
    requires items != [] && ItemsOk(items)
    ensures SplitOnComma(Join(ItemTexts(items), ",")) == ItemTexts(items)
  {
    hide ItemText, ItemOk;
    assert ItemOk(items[0]);
    ItemFacts(items[0]);
    assert ItemTexts(items)[1..] == ItemTexts(items[1..]);
    if |items| == 1 {
      assert ItemTexts(items[1..]) == [];
      SplitOne(ItemText(items[0]));
    } else {
      ItemsSplit(items[1..]);
      SplitThen(ItemText(items[0]), Join(ItemTexts(items[1..]), ","));
    }
  }

  lemma {:induction false} ItemsAccepted(items: seq<Item>)
    requires ItemsOk(items)
    ensures SetValues(ItemTexts(items)) == Ok(ItemValues(items))
  {
    hide ItemText, ItemOk, Trim, ValidValue;
    if items != [] {
      assert ItemOk(items[0]);
      ItemFacts(items[0]);
      ItemsAccepted(items[1..]);
      assert ItemTexts(items)[1..] == ItemTexts(items[1..]);
    }
  }

  lemma {:induction false} BodyExcludes(items: seq<Item>)
    requires ItemsOk(items)
    ensures var body := Join(ItemTexts(items), ","); '(' !in body && ')' !in body && '\n' !in body
  {
    hide ItemText, ItemOk;
    if items != [] {
      assert ItemOk(items[0]);
      ItemFacts(items[0]);
      BodyExcludes(items[1..]);
      assert ItemTexts(items)[1..] == ItemTexts(items[1..]);
    }
  }

  lemma ListedMatches(s: Spelling)
    requires s.Listed? && Spelled(s)
    ensures MatchSetTerm(Spell(s)) ==
            Some(SetTerm(s.key, if s.word == "in" then In else NotIn, Join(ItemTexts(s.items), ",")))
  {
    hide MatchSetTerm, MatchSetBody, ValidKey, ReGap, ItemsOk;
    var Listed(key, gap1, word, gap2, items) := s;
    var body, head := Join(ItemTexts(items), ","), key + gap1 + word;
    BodyExcludes(items);
    assert Spell(s) == head + (gap2 + "(" + body + ")");
    ListedHead(Spell(s), key, gap1, word, gap2 + "(" + body + ")");
    ListedBody(Spell(s), key, if word == "in" then In else NotIn, head, gap2, body);
  }

  lemma ListedMeans(s: Spelling)
    requires s.Listed? && Spelled(s)
    ensures ParseRequirement(Spell(s)) == if Clash(s) then Err(BadKey) else Ok(Meaning(s))
  {
    hide ValidKey, Blank, ReGap, ItemsOk, MatchSetTerm, CutWord, ParseComparison, SplitOnComma, SetValues;
    var Listed(key, gap1, word, gap2, items) := s;
    var t, u := Spell(s), word + gap2 + "(" + Join(ItemTexts(items), ",") + ")";
    assert t == key + (gap1 + u);
    ReGapStart(gap1);
    WordFormIs(t, key, gap1 + u);
    if Clash(s) {
      ListedClash(t, gap1, u);
    } else {
      ListedMatches(s);
      ItemsSplit(items);
      ItemsAccepted(items);
    }
  }

  lemma ReGapStart(gap: string)
    requires ReGap(gap) && gap != ""
    ensures !IsLabelChar(gap[0]) && Blank(gap)
  {
  }

  // The rest, trimmed, ends in a parenthesis, so it is no key.
  lemma ListedClash(t: string, gap: string, u: string)
    requires CutWord(t, "exists") == Some(gap + u) && !("!" <= t) && Blank(gap)
    requires u != "" && !IsSpace(u[0]) && u[|u| - 1] == ')'
    ensures ParseRequirement(t) == Err(BadKey)
  {
    hide CutWord, Blank, Trim;
    NothingIsBlank();
    assert Trimmed(u);
    TrimGaps(gap, u, "");
    assert gap + u + "" == gap + u;
  }

  // Every spelling of a requirement is read as what it means, unless it is a comparison or a set over the key `exists`
  // with white space after the key: then it is refused.
  lemma SpellingMeans(s: Spelling)
    requires Spelled(s)
    ensures ParseRequirement(Spell(s)) == if Clash(s) then Err(BadKey) else Ok(Meaning(s))
  {
    hide ParseRequirement, ValidKey, ValidValue, Blank;
    match s
    case Compared(_, _, _, _, _) => ComparedMeans(s);
    case Bare(key) => ExistsParses(key);
    case Asked(_, _) => AskedMeans(s);
    case Negated(_, _) => NegatedMeans(s);
    case Listed(_, _, _, _, _) => ListedMeans(s);
  }
}
