/** References to catalogue images, `name` and `name:version` (go/agentdb/customimages.go). */
module ImageRefs {
  import opened Text
  import opened ConfigFold

  datatype ImageRef = ImageRef(name: string, version: nat)   // version 0 is a floating reference

  datatype Invalid = Empty | BadName | NotAnInteger | BelowOne

  predicate IsDigit(c: char) {
    '0' <= c <= '9'
  }

  predicate LowerAlnum(c: char) {
    'a' <= c <= 'z' || IsDigit(c)
  }

  predicate NameChar(c: char) {
    LowerAlnum(c) || c == '.' || c == '_' || c == '-'
  }

  const MAX_NAME: nat := 255

  predicate ValidName(s: string) {
    0 < |s| <= MAX_NAME && LowerAlnum(s[0]) && LowerAlnum(s[|s| - 1]) && forall i :: 0 <= i < |s| ==> NameChar(s[i])
  }

  predicate AllDigits(s: string) {
    s != "" && forall i :: 0 <= i < |s| ==> IsDigit(s[i])
  }

  function Value(s: string): nat
    requires s == "" || AllDigits(s)
  {
    if s == "" then 0 else Value(s[..|s| - 1]) * 10 + (s[|s| - 1] as int - '0' as int)
  }

  const MAX_INT := 0x7fff_ffff_ffff_ffff

  // strconv.Atoi: an optional sign, then decimal digits, within the width of an int.
  function Atoi(s: string): Option<int> {
    if s == "" then None
    else
      var signed := s[0] == '+' || s[0] == '-';
      var digits := if signed then s[1..] else s;
      if !AllDigits(digits) then None
      else
        var m: int := Value(digits);
        var v := if s[0] == '-' then -m else m;
        if -MAX_INT - 1 <= v <= MAX_INT then Some(v) else None
  }

  function Parse(text: string): Result<ImageRef, Invalid> {
    var ref := Trim(text);
    if ref == "" then Err(Empty)
    else
      var name := Before(ref, ':');
      if !ValidName(name) then Err(BadName)
      else if |name| == |ref| then Ok(ImageRef(name, 0))
      else
        match Atoi(ref[|name| + 1..])
        case None => Err(NotAnInteger)
        case Some(v) => if v < 1 then Err(BelowOne) else Ok(ImageRef(name, v))
  }

  function Print(r: ImageRef): string {
    if r.version > 0 then r.name + ":" + Digits(r.version) else r.name
  }

  predicate Valid(r: ImageRef) {
    ValidName(r.name) && r.version <= MAX_INT
  }

  lemma {:induction false} DigitsValue(n: nat)
    ensures AllDigits(Digits(n)) && Value(Digits(n)) == n
  {
    if n >= 10 {
      DigitsValue(n / 10);
      var d := [('0' as int + n % 10) as char];
      assert (Digits(n / 10) + d)[..|Digits(n / 10)|] == Digits(n / 10);
    }
  }

  lemma AtoiDigits(n: nat)
    requires n <= MAX_INT
    ensures Atoi(Digits(n)) == Some(n)
  {
    DigitsValue(n);
    assert IsDigit(Digits(n)[0]);
  }

  // A parsed reference is valid.
  lemma ParsedIsValid(text: string)
    ensures Parse(text).Ok? ==> Valid(Parse(text).value)
  {
    hide Trim, ValidName, Value, AllDigits;
  }

  lemma PrintedIsTrimmed(r: ImageRef)
    requires Valid(r)
    ensures Trim(Print(r)) == Print(r) && Print(r) != ""
  {
    hide Trim;
    if r.version > 0 {
      DigitsValue(r.version);
      var d := Digits(r.version);
      assert IsDigit(d[|d| - 1]);
      assert Print(r)[|Print(r)| - 1] == d[|d| - 1];
    }
    TrimIsProjection(Print(r));
  }

  lemma NameBeforeColon(name: string, rest: string)
    requires ValidName(name)
    ensures ':' !in name && Before(name, ':') == name && Before(name + ":" + rest, ':') == name
  {
    assert ':' !in name;
    BeforeFirst(name, rest, ':');
    assert name + ":" + rest == name + [':'] + rest;
  }

  // Printing a valid reference and parsing it gives it back.
  lemma PrintThenParse(r: ImageRef)
    requires Valid(r)
    ensures Parse(Print(r)) == Ok(r)
  {
    hide Trim, ValidName, Atoi, Digits, Before;
    PrintedIsTrimmed(r);
    NameBeforeColon(r.name, Digits(r.version));
    AtoiDigits(r.version);
    if r.version > 0 {
      assert (r.name + ":" + Digits(r.version))[|r.name| + 1..] == Digits(r.version);
    }
  }

  // So, for every text that parses: printing what was read and reading that changes nothing.
  lemma ParsePrintIsFixed(text: string)
    ensures Parse(text).Ok? ==> Parse(Print(Parse(text).value)) == Parse(text)
  {
    hide Parse;
    ParsedIsValid(text);
    if Parse(text).Ok? {
      PrintThenParse(Parse(text).value);
    }
  }

  // ---- what is read, character by character ----

  const DIGITS := "0123456789"
  const LOWER := "abcdefghijklmnopqrstuvwxyz"

  lemma DigitIs(c: char)
    ensures IsDigit(c) <==> c in DIGITS
  {
    if IsDigit(c) {
      assert DIGITS[c as int - '0' as int] == c;
    }
  }

  lemma LowerIs(c: char)
    ensures LowerAlnum(c) <==> c in LOWER + DIGITS
  {
    hide IsDigit;
    DigitIs(c);
    LetterIs(c);
  }

  lemma LetterIs(c: char)
    ensures 'a' <= c <= 'z' <==> c in LOWER
  {
    if 'a' <= c <= 'z' {
      assert LOWER[c as int - 'a' as int] == c;
    }
  }

  predicate Over(s: string, chars: string) {
    forall i :: 0 <= i < |s| ==> s[i] in chars
  }

  // A name is one character, or a first, some between and a last: at most 255, lower case letters and digits, with
  // periods, hyphens and underscores only between.
  lemma NameIs(s: string)
    ensures ValidName(s) <==>
              1 <= |s| <= 255 && s[0] in LOWER + DIGITS && s[|s| - 1] in LOWER + DIGITS &&
              Over(s, LOWER + DIGITS + ".-_")
  {
    hide LowerAlnum, IsDigit;
    forall c ensures LowerAlnum(c) <==> c in LOWER + DIGITS {
      LowerIs(c);
    }
    assert forall c :: NameChar(c) <==> c in LOWER + DIGITS + ".-_";
  }

  predicate Number(ds: string) {
    ds != "" && Over(ds, DIGITS)
  }

  lemma NumberIs(ds: string)
    ensures Number(ds) <==> AllDigits(ds)
  {
    hide IsDigit;
    forall c ensures IsDigit(c) <==> c in DIGITS {
      DigitIs(c);
    }
  }

  function Zeros(k: nat): string {
    if k == 0 then "" else Zeros(k - 1) + "0"
  }

  // Leading zeros do not count.
  lemma {:induction false} ZerosAddNothing(k: nat, ds: string)
    requires AllDigits(ds)
    ensures AllDigits(Zeros(k) + ds) && Value(Zeros(k) + ds) == Value(ds)
    decreases k, |ds|
  {
    var t := Zeros(k) + ds;
    if k == 0 {
      assert t == ds;
    } else if |ds| == 1 {
      assert t[..|t| - 1] == Zeros(k) && t[|t| - 1] == ds[0];
      OnlyZeros(k);
    } else {
      assert t[..|t| - 1] == Zeros(k) + ds[..|ds| - 1];
      ZerosAddNothing(k, ds[..|ds| - 1]);
    }
  }

  lemma {:induction false} OnlyZeros(k: nat)
    ensures Zeros(k) != "" ==> AllDigits(Zeros(k))
    ensures (Zeros(k) == "" <==> k == 0) && Value(Zeros(k)) == 0
  {
    if k > 0 {
      OnlyZeros(k - 1);
      assert Zeros(k)[..|Zeros(k)| - 1] == Zeros(k - 1);
    }
  }

  lemma AtoiReads(sign: string, ds: string)
    requires sign in {"", "+", "-"} && Number(ds)
    ensures AllDigits(ds)
    ensures var v := if sign == "-" then -(Value(ds) as int) else Value(ds);
            Atoi(sign + ds) == if -0x8000_0000_0000_0000 <= v < 0x8000_0000_0000_0000 then Some(v) else None
  {
    hide Value;
    NumberIs(ds);
    var s := sign + ds;
    if sign == "" {
      assert s == ds && IsDigit(s[0]);
    } else {
      assert s[1..] == ds;
    }
  }

  lemma AtoiRefuses(s: string) returns (sign: string, ds: string)
    requires Atoi(s).Some?
    ensures sign in {"", "+", "-"} && Number(ds) && s == sign + ds
  {
    hide Value, IsDigit, Number;
    if s[0] == '+' || s[0] == '-' {
      sign, ds := [s[0]], s[1..];
      NumberIs(ds);
    } else {
      sign, ds := "", s;
      NumberIs(ds);
    }
  }

  // A text is a reference exactly if it is, but for the white space around it, a name, or a name, a colon and a decimal
  // number of at least 1 and below 2 to the 63rd, which a plus sign and zeros may precede; and it is read as just that.
  lemma ReferenceMeans(text: string, name: string, sign: string, zeros: nat, v: nat)
    requires ValidName(name) && sign in {"", "+"} && v < 0x8000_0000_0000_0000
    ensures Trim(text) == name ==> Parse(text) == Ok(ImageRef(name, 0))
    ensures Trim(text) == name + ":" + (sign + (Zeros(zeros) + Digits(v))) ==>
              Parse(text) == if v >= 1 then Ok(ImageRef(name, v)) else Err(BelowOne)
  {
    hide Trim, ValidName, Atoi, Digits, Before;
    var number := sign + (Zeros(zeros) + Digits(v));
    NameBeforeColon(name, number);
    NameStands(name);
    DigitsValue(v);
    ZerosAddNothing(zeros, Digits(v));
    NumberIs(Zeros(zeros) + Digits(v));
    AtoiReads(sign, Zeros(zeros) + Digits(v));
    assert (name + ":" + number)[|name| + 1..] == number;
  }

  lemma NameStands(name: string)
    requires ValidName(name)
    ensures name != ""
  {
  }

  lemma ParsedIsReference(text: string)
    ensures var ref := Trim(text);
            match Parse(text)
            case Err(Empty) => ref == ""
            case Err(BadName) => ref != "" && !ValidName(Before(ref, ':'))
            case Ok(r) =>
              ValidName(r.name) && (r.version == 0 <==> ref == r.name) &&
              (r.version > 0 ==> r.name + ":" <= ref && Atoi(ref[|r.name| + 1..]) == Some(r.version as int))
            case Err(e) =>
              var name := Before(ref, ':');
              ValidName(name) && name + ":" <= ref &&
              (e == NotAnInteger <==> Atoi(ref[|name| + 1..]) == None) &&
              (e == BelowOne <==> Atoi(ref[|name| + 1..]).Some? && Atoi(ref[|name| + 1..]).value < 1)
  {
    hide Trim, ValidName, Atoi;
    var ref := Trim(text);
    var name := Before(ref, ':');
    if |name| < |ref| {
      assert ref[..|name| + 1] == name + ":";
    }
  }
}
