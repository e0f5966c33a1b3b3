/** Fields and lines of the quake index file: escaping, splitting and joining. */
module IndexText {
  import opened Sequences
  import opened Text

  // ----- Escaping -----

  /** `escape_field`: four replacements, one after the other. */
  function EscapeField(value: string): string {
    ReplaceChar(ReplaceChar(ReplaceChar(ReplaceChar(value, '%', "%25"), '|', "%7C"), '\n', "%0A"), '\r', "%0D")
  }

  function EscapeChar(c: char): string {
    if c == '%' then "%25" else if c == '|' then "%7C"
    else if c == '\n' then "%0A" else if c == '\r' then "%0D" else [c]
  }

  /** Escaping character by character. */
  function Escaped(s: string): string {
    if s == [] then [] else EscapeChar(s[0]) + Escaped(s[1..])
  }

  lemma {:induction false} ReplaceSplits(a: string, b: string, from: char, to: string)
    ensures ReplaceChar(a + b, from, to) == ReplaceChar(a, from, to) + ReplaceChar(b, from, to)
  {
    if a == [] {
      assert a + b == b;
    } else {
      ReplaceSplits(a[1..], b, from, to);
      assert (a + b)[1..] == a[1..] + b;
      Appended(if a[0] == from then to else [a[0]], ReplaceChar(a[1..], from, to), ReplaceChar(b, from, to));
    }
  }

  lemma {:induction false} ReplaceAbsent(s: string, from: char, to: string)
    requires from !in s
    ensures ReplaceChar(s, from, to) == s
  {
    if s != [] {
      ReplaceAbsent(s[1..], from, to);
    }
  }

  lemma {:induction false} EscapeSplits(a: string, b: string)
    ensures EscapeField(a + b) == EscapeField(a) + EscapeField(b)
  {
    var a1, b1 := ReplaceChar(a, '%', "%25"), ReplaceChar(b, '%', "%25");
    var a2, b2 := ReplaceChar(a1, '|', "%7C"), ReplaceChar(b1, '|', "%7C");
    var a3, b3 := ReplaceChar(a2, '\n', "%0A"), ReplaceChar(b2, '\n', "%0A");
    ReplaceSplits(a, b, '%', "%25");
    ReplaceSplits(a1, b1, '|', "%7C");
    ReplaceSplits(a2, b2, '\n', "%0A");
    ReplaceSplits(a3, b3, '\r', "%0D");
  }

  lemma {:induction false} ReplaceOne(c: char, from: char, to: string)
    ensures ReplaceChar([c], from, to) == if c == from then to else [c]
  {
    assert [c][1..] == [];
  }

  lemma {:induction false} EscapeOne(c: char)
    ensures EscapeField([c]) == EscapeChar(c)
  {
    ReplaceOne(c, '%', "%25");
    if c == '%' {
      ReplaceAbsent("%25", '|', "%7C");
      ReplaceAbsent("%25", '\n', "%0A");
      ReplaceAbsent("%25", '\r', "%0D");
    } else {
      ReplaceOne(c, '|', "%7C");
      if c == '|' {
        ReplaceAbsent("%7C", '\n', "%0A");
        ReplaceAbsent("%7C", '\r', "%0D");
      } else {
        ReplaceOne(c, '\n', "%0A");
        ReplaceOne(c, '\r', "%0D");
        ReplaceAbsent("%0A", '\r', "%0D");
      }
    }
  }

  /** The four replacements amount to one pass: the percent signs they introduce are not escaped again. */
  lemma {:induction false} EscapeIsOnePass(s: string)
    ensures EscapeField(s) == Escaped(s)
  {
    if s != [] {
      EscapeIsOnePass(s[1..]);
      EscapeOne(s[0]);
      assert s == [s[0]] + s[1..];
      EscapeSplits([s[0]], s[1..]);
    }
  }

  /** What the two characters after a percent sign stand for; anything else is kept as it is. */
  function Decode(code: string): string {
    if code == "25" then "%" else if code == "7C" then "|" else if code == "0A" then "\n"
    else if code == "0D" then "\r" else "%" + code
  }

  function Unescaped(s: string): string
    decreases |s|
  {
    if s == [] then [] else
    if s[0] == '%' then
      var n := MinNat(2, |s| - 1);
      Decode(s[1..1 + n]) + Unescaped(s[1 + n..])
    else [s[0]] + Unescaped(s[1..])
  }

  /** `unescape_field`: takes characters one by one, two more after each percent sign. */
  method UnescapeField(value: string) returns (out: string)
    ensures out == Unescaped(value)
  {
    hide Decode;
    out := [];
    var i := 0;
    assert value[0..] == value;
    while i < |value|
      invariant i <= |value|
      invariant out + Unescaped(value[i..]) == Unescaped(value)
    {
      ghost var before, rest := out, value[i..];
      var ch := value[i];
      i := i + 1;
      if ch == '%' {
        var code := [];
        if i < |value| {
          code := code + [value[i]];
          i := i + 1;
        }
        if i < |value| {
          code := code + [value[i]];
          i := i + 1;
        }
        var n := MinNat(2, |rest| - 1);
        assert code == rest[1..1 + n] && rest[1 + n..] == value[i..];
        out := out + Decode(code);
        Appended(before, Decode(code), Unescaped(value[i..]));
      } else {
        assert rest[1..] == value[i..];
        out := out + [ch];
        Appended(before, [ch], Unescaped(value[i..]));
      }
    }
  }

  lemma {:induction false} UnescapeOne(c: char, rest: string)
    ensures Unescaped(EscapeChar(c) + rest) == [c] + Unescaped(rest)
  {
    var e := EscapeChar(c);
    if |e| == 3 {
      assert (e + rest)[1..3] == e[1..] && (e + rest)[3..] == rest;
      DecodedChar(c);
    } else {
      assert (e + rest)[1..] == rest;
    }
  }

  lemma {:induction false} DecodedChar(c: char)
    requires |EscapeChar(c)| == 3
    ensures Decode(EscapeChar(c)[1..]) == [c]
  {
  }

  /** Unescaping undoes escaping for every string. */
  lemma {:induction false} UnescapeUndoesEscape(s: string)
    ensures Unescaped(EscapeField(s)) == s
  {
    EscapeIsOnePass(s);
    if s != [] {
      hide EscapeField, EscapeChar;
      EscapeIsOnePass(s[1..]);
      UnescapeUndoesEscape(s[1..]);
      UnescapeOne(s[0], Escaped(s[1..]));
    }
  }

  /** Whether one of the four codes starts at `i`. */
  ghost predicate CodeAt(s: string, i: nat) {
    i + 3 <= |s| && s[i] == '%' && IsCode(s[i + 1], s[i + 2])
  }

  predicate IsCode(a: char, b: char) {
    (a == '2' && b == '5') || (a == '7' && b == 'C') || (a == '0' && (b == 'A' || b == 'D'))
  }

  ghost predicate HasNoCode(s: string) {
    forall i :: 0 <= i < |s| ==> !CodeAt(s, i)
  }

  lemma {:induction false} NoCodeLater(s: string, from: nat)
    requires from <= |s| && HasNoCode(s)
    ensures HasNoCode(s[from..])
  {
    forall i | 0 <= i < |s[from..]|
      ensures !CodeAt(s[from..], i)
    {
      assert !CodeAt(s, from + i);
    }
  }

  lemma {:induction false} OtherCode(code: string)
    requires |code| == 2 ==> !IsCode(code[0], code[1])
    ensures Decode(code) == "%" + code
  {
  }

  lemma {:induction false} UnescapeStep(s: string) returns (k: nat)
    requires s != [] && !CodeAt(s, 0)
    ensures 0 < k <= |s| && Unescaped(s) == s[..k] + Unescaped(s[k..])
  {
    var n := if s[0] == '%' then MinNat(2, |s| - 1) else 0;
    k := 1 + n;
    if s[0] == '%' {
      OtherCode(s[1..k]);
    }
    hide Decode;
    assert s[..k] == [s[0]] + s[1..k];
  }

  /** A text without any of the four codes is left as it is, other or incomplete codes included. */
  lemma {:induction false} OtherCodesStay(s: string)
    requires HasNoCode(s)
    ensures Unescaped(s) == s
    decreases |s|
  {
    if s != [] {
      var k := UnescapeStep(s);
      NoCodeLater(s, k);
      hide HasNoCode, Unescaped;
      OtherCodesStay(s[k..]);
      assert s == s[..k] + s[k..];
    }
  }

  /** A field fits on one line between separators. */
  predicate OneField(s: string) { '|' !in s && '\n' !in s && '\r' !in s }

  lemma {:induction false} EscapedIsOneField(s: string)
    ensures OneField(EscapeField(s))
  {
    EscapeIsOnePass(s);
    if s != [] {
      EscapeIsOnePass(s[1..]);
      EscapedIsOneField(s[1..]);
    }
  }

  // ----- Splitting and joining -----

  /** `split` on one character: at least one part. */
  function Split(s: string, separator: char): (parts: seq<string>)
    ensures parts != []
  {
    if s == [] then [[]]
    else if s[0] == separator then [[]] + Split(s[1..], separator)
    else var rest := Split(s[1..], separator); [[s[0]] + rest[0]] + rest[1..]
  }

  function Join(parts: seq<string>, separator: char): string
    requires parts != []
  {
    if |parts| == 1 then parts[0] else parts[0] + ([separator] + Join(parts[1..], separator))
  }

  lemma {:induction false} SplitFirst(part: string, rest: string, separator: char)
    requires separator !in part
    ensures Split(part, separator) == [part]
    ensures Split(part + ([separator] + rest), separator) == [part] + Split(rest, separator)
  {
    var whole := part + ([separator] + rest);
    if part == [] {
      assert whole[1..] == rest;
    } else {
      SplitFirst(part[1..], rest, separator);
      assert whole[1..] == part[1..] + ([separator] + rest);
      assert [part[0]] + part[1..] == part;
    }
  }

  lemma {:induction false} SplitJoin(parts: seq<string>, separator: char)
    requires parts != [] && forall i :: 0 <= i < |parts| ==> separator !in parts[i]
    ensures Split(Join(parts, separator), separator) == parts
  {
    if |parts| == 1 {
      SplitFirst(parts[0], [], separator);
    } else {
      SplitJoin(parts[1..], separator);
      SplitFirst(parts[0], Join(parts[1..], separator), separator);
    }
  }

  lemma {:induction false} JoinKeepsOut(parts: seq<string>, separator: char, c: char)
    requires parts != [] && c != separator && forall i :: 0 <= i < |parts| ==> c !in parts[i]
    ensures c !in Join(parts, separator)
  {
    if |parts| > 1 {
      JoinKeepsOut(parts[1..], separator, c);
    }
  }

  // ----- Lines -----

  function Find(s: string, c: char): (n: nat)
    ensures n <= |s| && c !in s[..n] && (n < |s| ==> s[n] == c)
  {
    if s == [] || s[0] == c then 0 else 1 + Find(s[1..], c)
  }

  function StripCr(line: string): string {
    if line != [] && line[|line| - 1] == '\r' then line[..|line| - 1] else line
  }

  /** `str::lines`: a carriage return before a line feed belongs to the line ending. */
  function Lines(text: string): seq<string>
    decreases |text|
  {
    if text == [] then [] else
    var n := Find(text, '\n');
    if n == |text| then [text] else [StripCr(text[..n])] + Lines(text[n + 1..])
  }

  /** A line that `lines` gives back as it was written. */
  predicate PlainLine(line: string) {
    line != [] && '\n' !in line && line[|line| - 1] != '\r'
  }

  lemma {:induction false} FindAfter(line: string, rest: string)
    requires '\n' !in line
    ensures Find(line, '\n') == |line|
    ensures Find(line + (['\n'] + rest), '\n') == |line|
  {
    var whole := line + (['\n'] + rest);
    if line != [] {
      FindAfter(line[1..], rest);
      assert whole[1..] == line[1..] + (['\n'] + rest);
    }
  }

  lemma {:induction false} FirstLine(line: string, rest: string)
    requires PlainLine(line)
    ensures Lines(line + (['\n'] + rest)) == [line] + Lines(rest)
  {
    var whole := line + (['\n'] + rest);
    FindAfter(line, rest);
    assert whole[..|line|] == line && whole[|line| + 1..] == rest;
  }

  lemma {:induction false} LinesOfJoined(lines: seq<string>)
    requires lines != [] && forall i :: 0 <= i < |lines| ==> PlainLine(lines[i])
    ensures Lines(Join(lines, '\n')) == lines
  {
    if |lines| == 1 {
      FindAfter(lines[0], []);
    } else {
      LinesOfJoined(lines[1..]);
      FirstLine(lines[0], Join(lines[1..], '\n'));
      HeadAndRest(lines);
    }
  }

  lemma {:induction false} LinesHaveNoBreak(text: string)
    ensures forall i :: 0 <= i < |Lines(text)| ==> '\n' !in Lines(text)[i]
    decreases |text|
  {
    if text != [] {
      var n := Find(text, '\n');
      if n < |text| {
        LinesHaveNoBreak(text[n + 1..]);
      } else {
        assert text[..n] == text;
      }
    }
  }
}
