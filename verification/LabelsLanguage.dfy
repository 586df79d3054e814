/** The language of selectors: a text parses exactly if it is made of spellings, and to what these mean, in order. */
module LabelsLanguage {
  import opened Text
  import opened Labels
  import opened LabelsRoundTrip
  import opened LabelsGrammar

  // ---- whatever parses is a spelling ----

  predicate Reads(t: string, s: Spelling) {
    Spelled(s) && !Clash(s) && Spell(s) == t && ParseRequirement(t) == Ok(Meaning(s))
  }

  // Trimmed text ends in no white space, so neither does what follows a prefix of it.
  lemma NoGapAtTheEnd(t: string, pre: string, m: string, r: string)
    requires Trimmed(t) && t == pre + m + r && Blank(r)
    ensures r == ""
  {
    LastOf(pre + m, r);
  }

  lemma LastOf(a: string, r: string)
    ensures r != "" ==> (a + r)[|a + r| - 1] == r[|r| - 1]
    ensures a != "" ==> (a + r)[0] == a[0]
  {
  }

  lemma NegatedRead(t: string) returns (s: Spelling)
    requires Trimmed(t) && "!" <= t && ParseRequirement(t).Ok?
    ensures Reads(t, s)
  {
    hide ValidKey, Trim, Blank, MatchSetTerm, ParseComparison, ParseSet, CutWord;
    var l, r := Gaps(t[1..]);
    var key := Trim(t[1..]);
    assert t == ("!" + l) + key + r;
    NoGapAtTheEnd(t, "!" + l, key, r);
    s := Negated(l, key);
  }

  lemma AskedRead(t: string) returns (s: Spelling)
    requires Trimmed(t) && !("!" <= t) && CutWord(t, "exists").Some? && ParseRequirement(t).Ok?
    ensures Reads(t, s)
  {
    hide ValidKey, Trim, Blank, MatchSetTerm, ParseComparison, ParseSet;
    var rest := t[6..];
    var l, r := Gaps(rest);
    var key := Trim(rest);
    assert t[..6] == "exists" && t == ("exists" + l) + key + r;
    NoGapAtTheEnd(t, "exists" + l, key, r);
    KeyIsTrimmed(key);
    KeyFacts(key);
    assert l == "" ==> rest[0] == key[0];
    PlainStart(key);
    assert rest[0] == t[6] && (l != "" ==> l[0] == rest[0]);
    s := Asked(l, key);
  }

  lemma PlainStart(k: string)
    requires Plain(k) && k != ""
    ensures IsLabelChar(k[0]) && !IsWordSpace(k[0]) && !IsSpace(k[0])
  {
  }

  // ---- comparisons ----

  lemma {:induction false} IndexIs(s: string, tok: string)
    ensures Index(s, tok).Some? ==> var i := Index(s, tok).value; s[i..i + |tok|] == tok
  {
    if |s| >= |tok| && s[..|tok|] != tok {
      IndexIs(s[1..], tok);
      if Index(s[1..], tok).Some? {
        var i := Index(s[1..], tok).value;
        forall k | 0 <= k < |tok| ensures s[i + 1..i + 1 + |tok|][k] == tok[k] {
          assert s[1..][i..i + |tok|][k] == tok[k];
        }
      }
    }
  }

  // The first sign of a comparison, where there is one.
  function SignAt(t: string): Option<(nat, string)> {
    match Index(t, "!=")
    case Some(i) => Some((i, "!="))
    case None =>
      match Index(t, "==")
      case Some(i) => Some((i, "=="))
      case None => (match Index(t, "=") case Some(i) => Some((i, "=")) case None => None)
  }

  lemma SignIs(t: string)
    ensures match SignAt(t)
            case None => ParseComparison(t) == KeyOnly(t, Exists)
            case Some((i, token)) =>
              token in {"=", "==", "!="} && i + |token| <= |t| && t[i..i + |token|] == token &&
              ParseComparison(t) == Comparison(t, i, |token|, if token == "!=" then NotEquals else Equals)
  {
    hide Index, Comparison, KeyOnly;
    IndexIs(t, "!=");
    IndexIs(t, "==");
    IndexIs(t, "=");
  }

  lemma LeftSide(t: string, pre: string, post: string) returns (gap: string)
    requires Trimmed(t) && t == pre + post && ValidKey(Trim(pre))
    ensures pre == Trim(pre) + gap && Blank(gap)
  {
    hide ValidKey, Trim, Blank, Trimmed;
    var l, r := Gaps(pre);
    assert t == l + (Trim(pre) + r + post);
    KeyIsTrimmed(Trim(pre));
    NoGapAtTheStart(t, l, Trim(pre) + r + post);
    gap := r;
  }

  lemma RightSide(t: string, pre: string, post: string) returns (gap: string)
    requires Trimmed(t) && t == pre + post
    ensures post == gap + Trim(post) && Blank(gap) && (Trim(post) == "" ==> gap == "")
  {
    hide Trim, Blank, Trimmed;
    var l, r := Gaps(post);
    assert t == (pre + l) + Trim(post) + r;
    NoGapAtTheEnd(t, pre + l, Trim(post), r);
    gap := l;
    if Trim(post) == "" {
      assert t == pre + "" + l;
      NoGapAtTheEnd(t, pre, "", l);
    }
  }

  // What stands on either side of the sign.
  lemma SidesSpelled(t: string, i: nat, token: string, op: Operator) returns (s: Spelling)
    requires Trimmed(t) && token in {"=", "==", "!="} && i + |token| <= |t| && t[i..i + |token|] == token
    requires Comparison(t, i, |token|, op).Ok?
    ensures s.Compared? && Spelled(s) && Spell(s) == t && s.token == token
    ensures Comparison(t, i, |token|, op).value == Requirement(s.key, op, [s.value])
  {
    hide ValidKey, ValidValue, Trim, Blank, Trimmed;
    var pre, post := t[..i], t[i + |token|..];
    assert t == pre + (token + post) && t == (pre + token) + post;
    var gap1 := LeftSide(t, pre, token + post);
    var gap2 := RightSide(t, pre + token, post);
    s := Compared(Trim(pre), gap1, token, gap2, Trim(post));
  }

  lemma NoGapAtTheStart(t: string, l: string, rest: string)
    requires Trimmed(t) && t == l + rest && Blank(l)
    ensures l == ""
  {
    LastOf(l, rest);
  }

  lemma ComparedRead(t: string) returns (s: Spelling)
    requires Trimmed(t) && t != "" && !("!" <= t) && CutWord(t, "exists") == None && MatchSetTerm(t) == None
    requires ParseComparison(t).Ok?
    ensures Reads(t, s)
  {
    hide ValidKey, ValidValue, Trim, Blank, CutWord, MatchSetTerm, ParseComparison, Comparison, SignAt;
    SignIs(t);
    match SignAt(t)
    case None => s := Bare(t);
    case Some((i, token)) =>
      s := SidesSpelled(t, i, token, if token == "!=" then NotEquals else Equals);
      ComparedWords(s);
  }

  // ---- sets ----

  lemma {:induction false} ReSpaceRunGap(s: string, i: nat)
    requires i <= |s|
    ensures ReGap(s[i..ReSpaceRun(s, i)])
    decreases |s| - i
  {
    if i < |s| && IsReSpace(s[i]) {
      ReSpaceRunGap(s, i + 1);
      assert s[i..ReSpaceRun(s, i)] == [s[i]] + s[i + 1..ReSpaceRun(s, i)];
    }
  }

  // The parts of a text the set pattern matches: the white space after the key, the word, and what is left.
  lemma SetHead(t: string) returns (gap1: string, word: string, from: nat)
    requires MatchSetTerm(t).Some?
    ensures var op := if word == "in" then In else NotIn;
            word in {"in", "notin"} && ReGap(gap1) && gap1 != "" && from <= |t| &&
            MatchSetTerm(t) == MatchSetBody(t, MatchSetTerm(t).value.key, op, from) &&
            t[..from] == MatchSetTerm(t).value.key + gap1 + word
  {
    hide ReGap, MatchSetBody, NonSpaceRun, ReSpaceRun;
    var i := NonSpaceRun(t, 0);
    var j := ReSpaceRun(t, i);
    ReSpaceRunGap(t, i);
    gap1 := t[i..j];
    word := if "in" <= t[j..] then "in" else "notin";
    WordThere(t, j, word);
    from := j + |word|;
    BodyKey(t, t[..i], if word == "in" then In else NotIn, from);
    assert t[..from] == t[..i] + gap1 + t[j..from];
  }

  lemma BodyKey(t: string, key: string, op: Operator, from: nat)
    requires from <= |t| && MatchSetBody(t, key, op, from).Some?
    ensures MatchSetBody(t, key, op, from).value.key == key && MatchSetBody(t, key, op, from).value.op == op
  {
  }

  lemma SetParts(t: string) returns (gap1: string, word: string, gap2: string)
    requires MatchSetTerm(t).Some?
    ensures var m := MatchSetTerm(t).value;
            t == m.key + gap1 + word + gap2 + "(" + m.body + ")" && ReGap(gap1) && gap1 != "" && ReGap(gap2) &&
            word in {"in", "notin"} && m.op == (if word == "in" then In else NotIn) && '\n' !in m.body
  {
    hide ReGap, MatchSetTerm, MatchSetBody;
    var m, from := MatchSetTerm(t).value, 0;
    gap1, word, from := SetHead(t);
    gap2 := BodyParts(t, m.key, if word == "in" then In else NotIn, from);
    assert t == t[..from] + t[from..];
    var tail := gap2 + "(" + m.body + ")";
    assert m.key + gap1 + word + tail == m.key + gap1 + word + gap2 + "(" + m.body + ")";
  }

  lemma WordThere(t: string, j: nat, word: string)
    requires j <= |t| && word <= t[j..]
    ensures j + |word| <= |t| && t[j..j + |word|] == word
  {
  }

  lemma BodyParts(t: string, key: string, op: Operator, from: nat) returns (gap2: string)
    requires from <= |t| && MatchSetBody(t, key, op, from).Some?
    ensures var m := MatchSetBody(t, key, op, from).value;
            m.key == key && m.op == op && ReGap(gap2) && '\n' !in m.body && t[from..] == gap2 + "(" + m.body + ")"
  {
    hide ReGap;
    ReSpaceRunGap(t, from);
    var k := ReSpaceRun(t, from);
    gap2 := t[from..k];
    hide ReSpaceRun;
    assert t[from..] == gap2 + [t[k]] + t[k + 1..|t| - 1] + [t[|t| - 1]];
  }

  lemma {:induction false} JoinSplit(s: string)
    ensures Join(SplitOnComma(s), ",") == s
  {
    if s != "" {
      var parts := SplitOnComma(s[1..]);
      JoinSplit(s[1..]);
      if s[0] == ',' {
        assert ([""] + parts)[1..] == parts;
        assert s == "" + "," + s[1..];
      } else {
        JoinHead([s[0]], parts);
        assert s == [s[0]] + s[1..];
      }
    }
  }

  lemma JoinHead(c: string, parts: seq<string>)
    requires parts != []
    ensures Join([c + parts[0]] + parts[1..], ",") == c + Join(parts, ",")
  {
    var next := [c + parts[0]] + parts[1..];
    assert next[1..] == parts[1..];
    if |parts| > 1 {
      assert c + parts[0] + "," + Join(parts[1..], ",") == c + (parts[0] + "," + Join(parts[1..], ","));
    }
  }

  lemma {:induction false} NoNewlineParts(s: string)
    requires '\n' !in s
    ensures forall p :: p in SplitOnComma(s) ==> '\n' !in p
  {
    if s != "" {
      NoNewlineParts(s[1..]);
      assert SplitOnComma(s[1..])[0] in SplitOnComma(s[1..]);
    }
  }

  lemma ItemRead(p: string) returns (i: Item)
    requires SetValue(Trim(p)) && '\n' !in p
    ensures ItemOk(i) && ItemText(i) == p && i.value == Trim(p)
  {
    hide Trim, Blank, SetValue;
    var l, r := Gaps(p);
    i := Item(l, Trim(p), r);
  }

  lemma {:induction false} ItemsRead(parts: seq<string>) returns (items: seq<Item>)
    requires SetValues(parts).Ok? && forall p :: p in parts ==> '\n' !in p
    ensures |items| == |parts| && ItemsOk(items) && ItemTexts(items) == parts
    ensures ItemValues(items) == SetValues(parts).value
  {
    hide ItemOk, ItemText, Trim, ValidValue;
    if parts == [] {
      items := [];
    } else {
      var first := ItemRead(parts[0]);
      var rest := ItemsRead(parts[1..]);
      items := [first] + rest;
      assert items[1..] == rest;
      ItemsCons(first, rest);
    }
  }

  lemma ItemsCons(first: Item, rest: seq<Item>)
    requires ItemOk(first) && ItemsOk(rest)
    ensures ItemsOk([first] + rest)
  {
  }

  lemma ListedRead(t: string) returns (s: Spelling)
    requires !("!" <= t) && CutWord(t, "exists") == None && MatchSetTerm(t).Some? && ParseRequirement(t).Ok?
    ensures Reads(t, s)
  {
    hide ValidKey, Trim, Blank, ReGap, ItemsOk, CutWord, MatchSetTerm, ParseComparison, SplitOnComma, SetValues;
    var m := MatchSetTerm(t).value;
    var gap1, word, gap2 := SetParts(t);
    NoNewlineParts(m.body);
    var items := ItemsRead(SplitOnComma(m.body));
    JoinSplit(m.body);
    s := Listed(m.key, gap1, word, gap2, items);
    assert t == m.key + (gap1 + word + gap2 + "(" + m.body + ")");
    ReGapStart(gap1);
    WordFormIs(t, m.key, gap1 + word + gap2 + "(" + m.body + ")");
  }

  // Whatever parses is the spelling of some requirement, and parses to what it means.
  lemma ParsedIsSpelled(t: string) returns (s: Spelling)
    requires Trimmed(t) && ParseRequirement(t).Ok?
    ensures Reads(t, s)
  {
    hide Reads, CutWord, MatchSetTerm, ParseSet, ParseComparison, Trim;
    if "!" <= t {
      s := NegatedRead(t);
    } else if CutWord(t, "exists").Some? {
      s := AskedRead(t);
    } else if MatchSetTerm(t).Some? {
      s := ListedRead(t);
    } else {
      NothingIsNoTerm(t);
      s := ComparedRead(t);
    }
  }

  lemma NothingIsNoTerm(t: string)
    requires ParseComparison(t).Ok?
    ensures t != ""
  {
  }

  // ---- whole selectors ----

  // What stands between two commas: a term with white space around it, or nothing but white space.
  datatype Slot = Empty(gap: string) | Term(left: string, spelling: Spelling, right: string)

  predicate SlotOk(s: Slot) {
    match s
    case Empty(gap) => Blank(gap)
    case Term(left, spelling, right) => Blank(left) && Spelled(spelling) && Blank(right)
  }

  function SlotText(s: Slot): string {
    match s
    case Empty(gap) => gap
    case Term(left, spelling, right) => left + Spell(spelling) + right
  }

  predicate SlotsOk(slots: seq<Slot>) {
    forall i :: 0 <= i < |slots| ==> SlotOk(slots[i])
  }

  predicate NoClash(slots: seq<Slot>) {
    forall i :: 0 <= i < |slots| && slots[i].Term? ==> !Clash(slots[i].spelling)
  }

  function SlotTexts(slots: seq<Slot>): (texts: seq<string>)
    ensures |texts| == |slots|
  {
    if slots == [] then [] else [SlotText(slots[0])] + SlotTexts(slots[1..])
  }

  function SelectorText(slots: seq<Slot>): string {
    Join(SlotTexts(slots), ",")
  }

  // The requirements the terms mean, in order.
  function Meanings(slots: seq<Slot>): Selector {
    if slots == [] then []
    else if slots[0].Empty? then Meanings(slots[1..])
    else [Meaning(slots[0].spelling)] + Meanings(slots[1..])
  }

  function Spells(slots: seq<Slot>): seq<string> {
    if slots == [] then []
    else if slots[0].Empty? then Spells(slots[1..])
    else [Spell(slots[0].spelling)] + Spells(slots[1..])
  }

  lemma SpelledIsTrimmed(s: Spelling)
    requires Spelled(s)
    ensures Spell(s) != "" && Trimmed(Spell(s))
  {
    hide ValidKey, ValidValue, Blank, ReGap, ItemsOk, Trim, IsSpace;
    var t := Spell(s);
    KeyIsTrimmed(s.key);
    match s
    case Compared(key, gap1, token, gap2, value) =>
      ValueIsTrimmed(value);
      TokenIsTrimmed(token);
      assert t[0] == key[0];
      assert t[|t| - 1] == if value == "" then token[|token| - 1] else value[|value| - 1];
    case Bare(key) =>
    case Asked(gap, key) => assert t[0] == 'e' && t[|t| - 1] == key[|key| - 1]; LettersShow();
    case Negated(gap, key) => assert t[0] == '!' && t[|t| - 1] == key[|key| - 1]; LettersShow();
    case Listed(key, gap1, word, gap2, items) => assert t[0] == key[0] && t[|t| - 1] == ')'; LettersShow();
  }

  lemma LettersShow()
    ensures !IsSpace('e') && !IsSpace('!') && !IsSpace(')')
  {
  }

  lemma TokenIsTrimmed(token: string)
    requires token in {"=", "==", "!="}
    ensures !IsSpace(token[|token| - 1])
  {
  }

  predicate Flat(t: string) {
    '(' !in t && ')' !in t && ',' !in t
  }

  lemma KeyIsFlat(k: string)
    requires ValidKey(k) || ValidValue(k)
    ensures Flat(k)
  {
    hide ValidKey, ValidValue;
    if ValidKey(k) {
      KeyFacts(k);
    } else {
      PlainFacts(k);
    }
    PlainExcludes(k);
  }

  lemma GapIsFlat(w: string)
    requires Blank(w) || ReGap(w)
    ensures Flat(w)
  {
    hide Blank, ReGap;
    if ReGap(w) {
      ReGapIsBlank(w);
    }
    BlankExcludes(w);
  }

  lemma FlatSpelling(s: Spelling)
    requires Spelled(s) && !s.Listed?
    ensures Flat(Spell(s))
  {
    hide ValidKey, ValidValue, Blank, Flat;
    KeyIsFlat(s.key);
    match s
    case Compared(key, gap1, token, gap2, value) =>
      GapIsFlat(gap1);
      GapIsFlat(gap2);
      KeyIsFlat(value);
      FlatJoins(key, gap1, "");
      FlatJoins(gap2, value, "");
      assert key + gap1 + "" == key + gap1 && gap2 + value + "" == gap2 + value;
      FlatJoins(key + gap1, token, gap2 + value);
      assert key + gap1 + token + (gap2 + value) == Spell(s);
    case Bare(key) =>
    case Asked(gap, key) =>
      GapIsFlat(gap);
      FlatJoins("exists", gap, key);
    case Negated(gap, key) =>
      GapIsFlat(gap);
      FlatJoins("!", gap, key);
  }

  lemma FlatJoins(a: string, b: string, c: string)
    requires Flat(a) || a in {"exists", "!"}
    requires Flat(b) || b in {"=", "==", "!=", "in", "notin"}
    requires Flat(c) || c == ""
    ensures Flat(a + b + c)
  {
  }

  // A spelling has no comma outside a set's parentheses, and these are balanced: the splitter reads it whole.
  lemma ConsumeSpelling(s: Spelling, left: string, rest: string)
    requires Spelled(s) && Blank(left)
    ensures SplitFrom(left + Spell(s) + rest, "", 0) == SplitFrom(rest, left + Spell(s), 0)
  {
    hide ValidKey, ValidValue, Blank, SplitFrom, Spelled, Spell;
    if s.Listed? {
      ConsumeListed(s, left, rest);
    } else {
      GapIsFlat(left);
      FlatSpelling(s);
      ConsumeText(left + Spell(s), rest, "", 0);
      assert "" + (left + Spell(s)) == left + Spell(s);
    }
  }

  lemma ListedText(s: Spelling, left: string)
    requires s.Listed?
    ensures left + Spell(s) ==
            left + s.key + s.gap1 + s.word + s.gap2 + "(" + Join(ItemTexts(s.items), ",") + ")"
  {
    hide Join, ItemTexts;
    var tail := "(" + Join(ItemTexts(s.items), ",") + ")";
    assert Spell(s) == s.key + s.gap1 + s.word + s.gap2 + tail;
    assert left + (s.key + s.gap1 + s.word + s.gap2 + tail) == left + s.key + s.gap1 + s.word + s.gap2 + tail;
  }

  lemma ListedHeadIsFlat(s: Spelling, left: string)
    requires Spelled(s) && Blank(left) && s.Listed?
    ensures Flat(left + s.key + s.gap1 + s.word + s.gap2)
  {
    hide ValidKey, Blank, ReGap, ItemsOk, Flat;
    KeyIsFlat(s.key);
    GapIsFlat(left);
    GapIsFlat(s.gap1);
    GapIsFlat(s.gap2);
    FlatJoins(left, s.key, s.gap1);
    FlatJoins(left + s.key + s.gap1, s.word, s.gap2);
  }

  lemma ConsumeListed(s: Spelling, left: string, rest: string)
    requires Spelled(s) && Blank(left) && s.Listed?
    ensures SplitFrom(left + Spell(s) + rest, "", 0) == SplitFrom(rest, left + Spell(s), 0)
  {
    hide ValidKey, Blank, ReGap, ItemsOk, SplitFrom, Flat, Spell, Join, ItemTexts;
    ListedHeadIsFlat(s, left);
    BodyExcludes(s.items);
    ListedText(s, left);
    ConsumeGroup(left + s.key + s.gap1 + s.word + s.gap2, Join(ItemTexts(s.items), ","), rest);
  }

  lemma ConsumeGroup(head: string, body: string, rest: string)
    requires Flat(head) && '(' !in body && ')' !in body
    ensures SplitFrom(head + "(" + body + ")" + rest, "", 0) == SplitFrom(rest, head + "(" + body + ")", 0)
  {
    var tail := ")" + rest;
    assert head + "(" + body + ")" + rest == head + ("(" + (body + tail));
    ConsumeText(head, "(" + (body + tail), "", 0);
    assert "" + head == head;
    ConsumeParen('(', body + tail, head, 0);
    ConsumeText(body, tail, head + "(", 1);
    ConsumeParen(')', rest, head + "(" + body, 1);
  }

  lemma ConsumeSlot(s: Slot, rest: string)
    requires SlotOk(s)
    ensures SplitFrom(SlotText(s) + rest, "", 0) == SplitFrom(rest, SlotText(s), 0)
  {
    hide Blank, Spelled, Spell, SplitFrom;
    match s
    case Empty(gap) =>
      BlankExcludes(gap);
      ConsumeText(gap, rest, "", 0);
      assert "" + gap == gap;
    case Term(left, spelling, right) =>
      BlankExcludes(right);
      ConsumeSpelling(spelling, left, right + rest);
      assert left + Spell(spelling) + right + rest == left + Spell(spelling) + (right + rest);
      ConsumeText(right, rest, left + Spell(spelling), 0);
  }

  lemma SlotFlushed(s: Slot)
    requires SlotOk(s)
    ensures Flushed(SlotText(s)) == if s.Empty? then [] else [Spell(s.spelling)]
  {
    hide Blank, Spelled, Spell, Trim;
    match s
    case Empty(gap) => TrimBlank(gap);
    case Term(left, spelling, right) =>
      SpelledIsTrimmed(spelling);
      TrimGaps(left, Spell(spelling), right);
  }

  lemma SplitComma(rest: string, buf: string)
    ensures SplitFrom("," + rest, buf, 0) == Prepend(Flushed(buf), SplitFrom(rest, "", 0))
  {
    assert ("," + rest)[1..] == rest;
  }

  lemma {:induction false} SlotsSplit(slots: seq<Slot>)
    requires SlotsOk(slots)
    ensures SplitFrom(SelectorText(slots), "", 0) == Ok(Spells(slots))
  {
    hide SlotOk, SlotText, Spell, SplitFrom, Flushed;
    if slots == [] {
      NothingIsBlank();
      EmptySplits();
    } else {
      var s, rest := slots[0], slots[1..];
      assert SlotOk(s);
      SlotFlushed(s);
      assert SlotTexts(slots)[1..] == SlotTexts(rest);
      if rest == [] {
        ConsumeSlot(s, "");
        assert SlotText(s) + "" == SlotText(s) && SlotTexts(rest) == [] && Spells(rest) == [];
        SplitEnd(SlotText(s));
        assert SelectorText(slots) == SlotText(s) && Spells(slots) == Flushed(SlotText(s));
      } else {
        SlotsSplit(rest);
        ConsumeSlot(s, "," + SelectorText(rest));
        assert SelectorText(slots) == SlotText(s) + ("," + SelectorText(rest));
        SplitComma(SelectorText(rest), SlotText(s));
        assert Flushed(SlotText(s)) + Spells(rest) == Spells(slots);
      }
    }
  }

  lemma EmptySplits()
    ensures SplitFrom("", "", 0) == Ok([])
  {
  }

  lemma {:induction false} SpellsMean(slots: seq<Slot>)
    requires SlotsOk(slots)
    ensures ParseTerms(Spells(slots)) == if NoClash(slots) then Ok(Meanings(slots)) else Err(BadKey)
  {
    hide ParseRequirement, Spelled, Spell, Blank, Clash, Meaning;
    if slots != [] {
      var s, rest := slots[0], slots[1..];
      assert SlotOk(s);
      SpellsMean(rest);
      NoClashCons(s, rest);
      assert slots == [s] + rest;
      if s.Term? {
        SpellingMeans(s.spelling);
        assert Spells(slots)[1..] == Spells(rest);
      }
    }
  }

  lemma NoClashCons(s: Slot, rest: seq<Slot>)
    ensures NoClash([s] + rest) <==> (s.Term? ==> !Clash(s.spelling)) && NoClash(rest)
  {
    hide Clash;
    var all := [s] + rest;
    assert forall i :: 0 <= i < |rest| ==> all[i + 1] == rest[i];
    if NoClash(all) {
      assert all[0] == s;
    }
  }

  // A text made of spellings, separated by commas and with white space or nothing in between, parses to what they mean,
  // in order; it is refused if and only if one of them clashes with the `exists key` spelling.
  lemma TextMeans(slots: seq<Slot>)
    requires SlotsOk(slots)
    ensures Parse(SelectorText(slots)) == if NoClash(slots) then Ok(Meanings(slots)) else Err(BadKey)
  {
    hide SlotsOk, NoClash, ParseTerms, SplitFrom, SelectorText;
    SlotsSplit(slots);
    SpellsMean(slots);
  }

  // ---- and nothing else parses ----

  function FlushedAll(bufs: seq<string>): seq<string> {
    if bufs == [] then [] else Flushed(bufs[0]) + FlushedAll(bufs[1..])
  }

  // The texts between the commas that split.
  lemma {:induction false} Buffers(s: string, buf: string, depth: int) returns (bufs: seq<string>)
    requires SplitFrom(s, buf, depth).Ok?
    ensures bufs != [] && Join(bufs, ",") == buf + s && SplitFrom(s, buf, depth).value == FlushedAll(bufs)
  {
    hide Flushed;
    if s == "" {
      bufs := [buf];
      assert FlushedAll(bufs[1..]) == [] && buf + s == buf;
    } else {
      var c, rest := s[0], s[1..];
      assert buf + s == buf + [c] + rest;
      if c == ',' && depth == 0 {
        var more := Buffers(rest, "", 0);
        bufs := [buf] + more;
        assert bufs[1..] == more && "" + rest == rest;
        assert buf + s == buf + "," + rest;
      } else {
        bufs := Buffers(rest, buf + [c], depth + if c == '(' then 1 else if c == ')' then -1 else 0);
      }
    }
  }

  lemma SlotRead(buf: string) returns (s: Slot)
    requires Blank(buf) || ParseRequirement(Trim(buf)).Ok?
    ensures SlotOk(s) && SlotText(s) == buf && (s.Term? ==> !Clash(s.spelling)) && (s.Empty? <==> Blank(buf))
    ensures s.Term? ==> Spell(s.spelling) == Trim(buf) && ParseRequirement(Trim(buf)) == Ok(Meaning(s.spelling))
  {
    hide ParseRequirement, Spelled, Clash, Spell, Meaning, Trim, Blank;
    if Blank(buf) {
      s := Empty(buf);
    } else {
      TrimIsProjection(buf);
      var spelling := ParsedIsSpelled(Trim(buf));
      var l, r := Gaps(buf);
      s := Term(l, spelling, r);
    }
  }

  lemma {:induction false} SlotsRead(bufs: seq<string>) returns (slots: seq<Slot>)
    requires ParseTerms(FlushedAll(bufs)).Ok?
    ensures SlotsOk(slots) && NoClash(slots) && SlotTexts(slots) == bufs
    ensures Meanings(slots) == ParseTerms(FlushedAll(bufs)).value
  {
    hide ParseRequirement, SlotOk, SlotText, Clash, Meaning, Trim, Blank;
    if bufs == [] {
      slots := [];
    } else {
      TrimBlank(bufs[0]);
      var tail := FlushedAll(bufs[1..]);
      assert !Blank(bufs[0]) ==> FlushedAll(bufs) == [Trim(bufs[0])] + tail && FlushedAll(bufs)[1..] == tail;
      assert Blank(bufs[0]) ==> FlushedAll(bufs) == tail;
      var s := SlotRead(bufs[0]);
      var rest := SlotsRead(bufs[1..]);
      slots := [s] + rest;
      assert slots[1..] == rest;
      NoClashCons(s, rest);
      SlotsCons(s, rest);
    }
  }

  lemma SlotsCons(s: Slot, rest: seq<Slot>)
    requires SlotOk(s) && SlotsOk(rest)
    ensures SlotsOk([s] + rest)
  {
  }

  // Every text that parses is made so.
  lemma ParsedTextIsSpelled(text: string) returns (slots: seq<Slot>)
    requires Parse(text).Ok?
    ensures SlotsOk(slots) && NoClash(slots) && SelectorText(slots) == text && Parse(text) == Ok(Meanings(slots))
  {
    hide ParseTerms, SlotsOk, NoClash, Meanings;
    var bufs := Buffers(text, "", 0);
    assert "" + text == text;
    slots := SlotsRead(bufs);
  }

  // ---- what the requirements ask of a row ----

  // Each operator against the others: a negative one holds exactly where its positive one does not, so also where the
  // key is missing; a set is any of its values.
  lemma OperatorsMean(key: string, vs: seq<string>, v: string, labels: LabelMap)
    requires vs != []
    ensures Satisfied(Requirement(key, Equals, [v]), labels) <==> (key, v) in labels.Items
    ensures Satisfied(Requirement(key, NotEquals, [v]), labels) <==> !Satisfied(Requirement(key, Equals, [v]), labels)
    ensures Satisfied(Requirement(key, In, vs), labels) <==>
              exists i :: 0 <= i < |vs| && Satisfied(Requirement(key, Equals, [vs[i]]), labels)
    ensures Satisfied(Requirement(key, NotIn, vs), labels) <==> !Satisfied(Requirement(key, In, vs), labels)
    ensures Satisfied(Requirement(key, Exists, []), labels) <==>
              exists w :: w in labels.Values && Satisfied(Requirement(key, Equals, [w]), labels)
    ensures Satisfied(Requirement(key, NotExists, []), labels) <==> !Satisfied(Requirement(key, Exists, []), labels)
  {
    if key in labels {
      assert labels[key] in labels.Values;
      if labels[key] in vs {
        var i :| 0 <= i < |vs| && vs[i] == labels[key];
        assert Satisfied(Requirement(key, Equals, [vs[i]]), labels);
      }
      assert Satisfied(Requirement(key, Equals, [labels[key]]), labels);
    }
  }

  // ---- the characters ----

  const UPPER := "ABCDEFGHIJKLMNOPQRSTUVWXYZ"
  const LOWER := "abcdefghijklmnopqrstuvwxyz"
  const DIGITS := "0123456789"
  const LETTERS := UPPER + LOWER + DIGITS

  lemma UpperIs(c: char)
    ensures 'A' <= c <= 'Z' <==> c in UPPER
  {
    if 'A' <= c <= 'Z' {
      assert UPPER[c as int - 'A' as int] == c;
    }
  }

  lemma LowerIs(c: char)
    ensures 'a' <= c <= 'z' <==> c in LOWER
  {
    if 'a' <= c <= 'z' {
      assert LOWER[c as int - 'a' as int] == c;
    }
  }

  lemma DigitIs(c: char)
    ensures '0' <= c <= '9' <==> c in DIGITS
  {
    if '0' <= c <= '9' {
      assert DIGITS[c as int - '0' as int] == c;
    }
  }

  lemma AlnumIs(c: char)
    ensures IsAlnum(c) <==> c in LETTERS
  {
    UpperIs(c);
    LowerIs(c);
    DigitIs(c);
  }

  predicate Word(s: string) {
    1 <= |s| <= 63 && s[0] in LETTERS && s[|s| - 1] in LETTERS &&
    forall i :: 0 <= i < |s| ==> s[i] in LETTERS + "-_."
  }

  // Keys and values are words of at most 63 characters that begin and end with a letter or digit; a value may be empty.
  lemma KeysAndValuesAre(s: string)
    ensures ValidKey(s) <==> Word(s)
    ensures ValidValue(s) <==> s == "" || Word(s)
  {
    hide IsAlnum;
    forall c ensures IsAlnum(c) <==> c in LETTERS {
      AlnumIs(c);
    }
    assert forall c :: IsLabelChar(c) <==> c in LETTERS + "-_.";
  }

  // ---- what is refused, and as what ----

  function Depth(s: string): int {
    if s == "" then 0
    else Depth(s[..|s| - 1]) + if s[|s| - 1] == '(' then 1 else if s[|s| - 1] == ')' then -1 else 0
  }

  // A parenthesis closes that was not open.
  predicate Closes(s: string, depth: int) {
    exists k :: 0 <= k <= |s| && depth + Depth(s[..k]) < 0
  }

  lemma DepthOfFirst(c: char, rest: string)
    ensures Depth([c] + rest) == (if c == '(' then 1 else if c == ')' then -1 else 0) + Depth(rest)
    decreases |rest|
  {
    var s := [c] + rest;
    if rest == "" {
      assert s[..0] == "";
    } else {
      assert s[..|s| - 1] == [c] + rest[..|rest| - 1];
      DepthOfFirst(c, rest[..|rest| - 1]);
    }
  }

  lemma ClosesFirst(c: char, rest: string, depth: int)
    requires depth >= 0
    ensures Closes([c] + rest, depth) <==>
              Closes(rest, depth + if c == '(' then 1 else if c == ')' then -1 else 0)
  {
    var s, d := [c] + rest, if c == '(' then 1 else if c == ')' then -1 else 0;
    forall k | 0 <= k <= |rest| ensures Depth(s[..k + 1]) == d + Depth(rest[..k]) {
      assert s[..k + 1] == [c] + rest[..k];
      DepthOfFirst(c, rest[..k]);
    }
    if Closes(s, depth) {
      var k :| 0 <= k <= |s| && depth + Depth(s[..k]) < 0;
      assert k > 0 by { assert s[..0] == ""; }
      assert Depth(s[..k - 1 + 1]) == d + Depth(rest[..k - 1]);
    }
    if Closes(rest, depth + d) {
      var k :| 0 <= k <= |rest| && depth + d + Depth(rest[..k]) < 0;
      assert Depth(s[..k + 1]) == d + Depth(rest[..k]);
    }
  }

  // The splitter refuses exactly the unbalanced texts: where a parenthesis closes that was not open, or else where one
  // is left open at the end.
  lemma {:induction false} SplitRefuses(s: string, buf: string, depth: int)
    requires depth >= 0
    ensures SplitFrom(s, buf, depth) == Err(UnbalancedClose) <==> Closes(s, depth)
    ensures SplitFrom(s, buf, depth) == Err(UnbalancedOpen) <==> !Closes(s, depth) && depth + Depth(s) != 0
    ensures SplitFrom(s, buf, depth).Ok? <==> !Closes(s, depth) && depth + Depth(s) == 0
    decreases |s|
  {
    hide Closes, Depth, Flushed;
    if s == "" {
      NothingCloses(depth);
    } else {
      var c, rest := s[0], s[1..];
      assert s == [c] + rest;
      DepthOfFirst(c, rest);
      ClosesFirst(c, rest, depth);
      var d := depth + if c == '(' then 1 else if c == ')' then -1 else 0;
      if d < 0 {
        ClosesAtOnce(rest, d);
      } else if c == ',' && depth == 0 {
        SplitRefuses(rest, "", 0);
      } else {
        SplitRefuses(rest, buf + [c], d);
      }
    }
  }

  lemma NothingCloses(depth: int)
    ensures Depth("") == 0 && (Closes("", depth) <==> depth < 0)
  {
    assert ""[..0] == "";
  }

  lemma ClosesAtOnce(s: string, depth: int)
    requires depth < 0
    ensures Closes(s, depth)
  {
    assert s[..0] == "" && Depth("") == 0;
  }

  // A text whose terms are not balanced is refused as such, before any term is looked at.
  lemma UnbalancedIsRefused(s: string)
    ensures Parse(s) == Err(UnbalancedClose) <==> Closes(s, 0)
    ensures Parse(s) == Err(UnbalancedOpen) <==> !Closes(s, 0) && Depth(s) != 0
  {
    hide Closes, Depth;
    SplitRefuses(s, "", 0);
    if SplitFrom(s, "", 0).Ok? {
      TermErrors(SplitFrom(s, "", 0).value);
    }
  }

  lemma {:induction false} TermErrors(terms: seq<string>)
    ensures ParseTerms(terms).Err? ==> ParseTerms(terms).error in {BadKey, BadValue, EmptyValue}
  {
    hide ParseRequirement;
    if terms != [] {
      RequirementErrors(terms[0]);
      TermErrors(terms[1..]);
    }
  }

  lemma {:induction false} SetErrors(parts: seq<string>)
    ensures SetValues(parts).Err? ==> SetValues(parts).error in {BadValue, EmptyValue}
  {
    hide ValidValue, Trim;
    if parts != [] {
      SetErrors(parts[1..]);
    }
  }

  lemma RequirementErrors(t: string)
    ensures ParseRequirement(t).Err? ==> ParseRequirement(t).error in {BadKey, BadValue, EmptyValue}
  {
    hide ValidKey, ValidValue, Trim, Index, MatchSetTerm, CutWord;
    if MatchSetTerm(t).Some? {
      SetErrors(SplitOnComma(MatchSetTerm(t).value.body));
    }
  }

  // Of a comparison or a set, the key is looked at first; then the values in order, an empty one in a set being an
  // error of its own.
  lemma {:induction false} ValuesRefused(good: seq<string>, bad: string, rest: seq<string>)
    requires (forall v :: v in good ==> SetValue(Trim(v))) && !SetValue(Trim(bad))
    ensures SetValues(good + [bad] + rest) == Err(if Trim(bad) == "" then EmptyValue else BadValue)
    decreases |good|
  {
    hide ValidValue, Trim;
    var parts := good + [bad] + rest;
    if good != [] {
      assert parts[0] == good[0] && parts[1..] == good[1..] + [bad] + rest;
      ValuesRefused(good[1..], bad, rest);
    }
  }

  lemma KeyRefusedFirst(t: string)
    ensures !("!" <= t) && CutWord(t, "exists") == None ==>
              match MatchSetTerm(t)
              case Some(m) => ParseRequirement(t) == Err(BadKey) <==> !ValidKey(m.key)
              case None =>
                match SignAt(t)
                case None => ParseRequirement(t) == Err(BadKey) <==> !ValidKey(t)
                case Some((i, token)) =>
                  i + |token| <= |t| &&
                  (ParseRequirement(t) == Err(BadKey) <==> !ValidKey(Trim(t[..i]))) &&
                  (ParseRequirement(t) == Err(BadValue) <==>
                     ValidKey(Trim(t[..i])) && !ValidValue(Trim(t[i + |token|..])))
  {
    hide ValidKey, ValidValue, Trim, MatchSetTerm, CutWord, SignAt, SplitOnComma, SetValues, ParseComparison;
    SignIs(t);
    if MatchSetTerm(t).Some? {
      SetErrors(SplitOnComma(MatchSetTerm(t).value.body));
    }
  }
}
