/**
  `parseAnnotations`: finds `file:line: message` and `file:line:col: message` lines in
  the log of a pod. Text is a sequence of characters; the scanner's limit on the length
  of a line is not modelled.
 */
module LogParser {
  import opened Basics

  datatype Annotation = Annotation(path: string, level: string, startLine: int, endLine: int, message: string)

  /* ---------- library functions ---------- */

  /** Where `c` is first, or the length. */
  function IndexOf(s: string, c: char): (i: nat)
    ensures i <= |s|
  {
    if s == "" || s[0] == c then 0 else 1 + IndexOf(s[1..], c)
  }

  lemma {:induction false} FirstIndex(s: string, c: char)
    ensures var i := IndexOf(s, c); c !in s[..i] && (i < |s| ==> s[i] == c)
  {
    if s != "" && s[0] != c {
      FirstIndex(s[1..], c);
      var i := IndexOf(s, c);
      assert s[..i] == [s[0]] + s[1..][..i - 1];
    }
  }

  lemma {:induction false} IndexIs(a: string, c: char, b: string)
    requires c !in a
    ensures IndexOf(a + [c] + b, c) == |a|
    ensures IndexOf(a, c) == |a|
  {
    if a != "" {
      IndexIs(a[1..], c, b);
      assert (a + [c] + b)[1..] == a[1..] + [c] + b;
    }
  }

  /** `strings.SplitN` at colons, for a positive `n`. */
  function SplitN(s: string, n: nat): (parts: seq<string>)
    requires n > 0
    ensures 0 < |parts| <= n
  {
    var i := IndexOf(s, ':');
    if n == 1 || i == |s| then [s] else [s[..i]] + SplitN(s[i + 1..], n - 1)
  }

  /** The white space of Unicode, as `unicode.IsSpace` knows it. */
  predicate Space(c: char) {
    || '\t' <= c <= '\r' || c == ' ' || c == '\U{85}' || c == '\U{A0}' || c == '\U{1680}'
    || '\U{2000}' <= c <= '\U{200A}' || c == '\U{2028}' || c == '\U{2029}' || c == '\U{202F}'
    || c == '\U{205F}' || c == '\U{3000}'
  }

  function TrimLeft(s: string, cut: char -> bool): (t: string) {
    if s != "" && cut(s[0]) then TrimLeft(s[1..], cut) else s
  }

  function TrimRight(s: string, cut: char -> bool): (t: string) {
    if s != "" && cut(s[|s| - 1]) then TrimRight(s[..|s| - 1], cut) else s
  }

  lemma {:induction false} TrimLeftIs(s: string, cut: char -> bool)
    ensures var t := TrimLeft(s, cut); |t| <= |s| && t == s[|s| - |t|..] && (t == "" || !cut(t[0]))
  {
    if s != "" && cut(s[0]) {
      TrimLeftIs(s[1..], cut);
      var t := TrimLeft(s[1..], cut);
      assert s[1..][|s| - 1 - |t|..] == s[|s| - |t|..];
    }
  }

  lemma {:induction false} TrimRightIs(s: string, cut: char -> bool)
    ensures var t := TrimRight(s, cut); |t| <= |s| && t == s[..|t|] && (t == "" || !cut(t[|t| - 1]))
  {
    if s != "" && cut(s[|s| - 1]) {
      TrimRightIs(s[..|s| - 1], cut);
      var t := TrimRight(s[..|s| - 1], cut);
      assert s[..|s| - 1][..|t|] == s[..|t|];
    }
  }

  function TrimSpace(s: string): string {
    TrimRight(TrimLeft(s, Space), Space)
  }

  function TrimPrefix(s: string, prefix: string): string {
    if prefix <= s then s[|prefix|..] else s
  }

  predicate PathDirt(c: char) {
    c == '.' || c == '/' || c == '\\'
  }

  /** The number written by decimal digits; nothing if there is another character. */
  function Value(s: string): Option<nat> {
    if s == "" then Some(0)
    else
      var c, rest := s[|s| - 1], Value(s[..|s| - 1]);
      if rest.Some? && '0' <= c <= '9' then Some(10 * rest.value + (c - '0') as int) else None
  }

  const MAX_INT := 0x7fff_ffff_ffff_ffff

  /** `strconv.Atoi` with 64-bit integers. */
  function Atoi(s: string): Option<int> {
    var digits := if s != "" && (s[0] == '-' || s[0] == '+') then s[1..] else s;
    var n := if digits == "" then None else Value(digits);
    if n.None? then None
    else if s[0] == '-' then (if n.value <= MAX_INT + 1 then Some(-n.value) else None)
    else if n.value <= MAX_INT then Some(n.value)
    else None
  }

  function Digits(n: nat): string {
    var last := ['0' + (n % 10) as char];
    if n < 10 then last else Digits(n / 10) + last
  }

  /** `strconv.Itoa`. */
  function Itoa(n: int): string {
    if n < 0 then "-" + Digits(-n) else Digits(n)
  }

  lemma {:induction false} DigitsValue(n: nat)
    ensures Digits(n) != "" && Value(Digits(n)) == Some(n)
    ensures forall c :: c in Digits(n) ==> '0' <= c <= '9'
  {
    var last := ['0' + (n % 10) as char];
    if n < 10 {
      assert last[..0] == "";
    } else {
      DigitsValue(n / 10);
      assert (Digits(n / 10) + last)[..|Digits(n / 10)|] == Digits(n / 10);
    }
  }

  lemma {:induction false} AtoiOfItoa(n: int)
    requires -MAX_INT - 1 <= n <= MAX_INT
    ensures Atoi(Itoa(n)) == Some(n)
    ensures ':' !in Itoa(n) && '\n' !in Itoa(n)
  {
    DigitsValue(if n < 0 then -n else n);
    if n < 0 {
      assert Itoa(n)[1..] == Digits(-n);
    } else {
      assert Digits(n)[0] in Digits(n);
    }
  }

  predicate AllDigits(s: string) {
    s != "" && forall i :: 0 <= i < |s| ==> '0' <= s[i] <= '9'
  }

  /** The number that decimal digits write, read from the left. */
  function Number(s: string, sofar: nat): nat
    requires forall i :: 0 <= i < |s| ==> '0' <= s[i] <= '9'
  {
    if s == "" then sofar else Number(s[1..], 10 * sofar + (s[0] - '0') as int)
  }

  lemma {:induction false} NumberAppend(s: string, c: char, sofar: nat)
    requires (forall i :: 0 <= i < |s| ==> '0' <= s[i] <= '9') && '0' <= c <= '9'
    ensures Number(s + [c], sofar) == 10 * Number(s, sofar) + (c - '0') as int
  {
    if s == "" {
      assert ("" + [c])[1..] == "";
    } else {
      assert (s + [c])[1..] == s[1..] + [c];
      NumberAppend(s[1..], c, 10 * sofar + (s[0] - '0') as int);
    }
  }

  lemma {:induction false} ValueIsNumber(s: string)
    ensures if s == "" || AllDigits(s) then Value(s) == Some(Number(s, 0)) else Value(s) == None
  {
    if s != "" {
      var front, c := s[..|s| - 1], s[|s| - 1];
      ValueIsNumber(front);
      assert s == front + [c];
      if AllDigits(s) {
        NumberAppend(front, c, 0);
      } else if front == "" || AllDigits(front) {
        assert forall i :: 0 <= i < |front| ==> '0' <= s[i] <= '9';
      }
    }
  }

  /** A sign or none, then digits that write a number of 64 bits; with a minus its opposite. */
  lemma {:induction false} AtoiIs(s: string, n: int)
    ensures Atoi(s) == Some(n) <==>
      && -MAX_INT - 1 <= n <= MAX_INT
      && if s != "" && s[0] == '-' then AllDigits(s[1..]) && n + Number(s[1..], 0) == 0
         else if s != "" && s[0] == '+' then AllDigits(s[1..]) && n == Number(s[1..], 0)
         else AllDigits(s) && n == Number(s, 0)
  {
    ValueIsNumber(s);
    if s != "" { ValueIsNumber(s[1..]); }
  }

  /* ---------- lines ---------- */

  /** The scanner drops one carriage return at the end of a line. */
  function DropCR(s: string): string {
    if s != "" && s[|s| - 1] == '\r' then s[..|s| - 1] else s
  }

  /** The tokens of a scanner over lines; there is none after a final newline. */
  function Lines(s: string): seq<string> {
    if s == "" then []
    else
      var i := IndexOf(s, '\n');
      [DropCR(s[..i])] + (if i == |s| then [] else Lines(s[i + 1..]))
  }

  function Clean(s: string, prefix: string): string {
    TrimLeft(TrimPrefix(TrimSpace(s), prefix), PathDirt)
  }

  function Notice(path: string, line: int, message: string): Annotation {
    Annotation(path, "notice", line, line, message)
  }

  /** What a line contributes, taken apart: after the line number comes the text, or a column and the text. */
  function ParseFields(file: string, line: string, rest: seq<string>, prefix: string): Option<Annotation>
    requires rest != []
  {
    var n, tail := Atoi(line), rest[|rest| - 1];
    if n.None? || tail == "" || tail[0] != ' ' then None
    else Some(Notice(Clean(file, prefix), n.value, TrimSpace(tail)))
  }

  function ParseLine(text: string, prefix: string): Option<Annotation> {
    var strs := SplitN(text, 3);
    if |strs| < 3 then None else ParseFields(strs[0], strs[1], SplitN(strs[2], 2), prefix)
  }

  function Found(text: string, prefix: string): seq<Annotation> {
    var a := ParseLine(text, prefix);
    if a.Some? then [a.value] else []
  }

  function ParseLines(lines: seq<string>, prefix: string): seq<Annotation> {
    if lines == [] then [] else Found(lines[0], prefix) + ParseLines(lines[1..], prefix)
  }

  function ParseLog(log: string, prefix: string): seq<Annotation> {
    ParseLines(Lines(log), prefix)
  }

  /** The annotations of a log are those of its lines. */
  lemma {:induction false} LogHas(lines: seq<string>, prefix: string, a: Annotation)
    ensures a in ParseLines(lines, prefix) <==> exists line :: line in lines && ParseLine(line, prefix) == Some(a)
  {
    if lines != [] {
      LogHas(lines[1..], prefix, a);
      forall line ensures line in lines <==> line == lines[0] || line in lines[1..] {
        assert lines == [lines[0]] + lines[1..];
      }
    }
  }

  /** The scanner's view of a text that is not at its end. */
  function RestAfter(s: string, i: nat): string
    requires i <= |s|
  {
    if i == |s| then "" else s[i + 1..]
  }

  lemma LinesStep(s: string, i: nat)
    requires s != "" && i == IndexOf(s, '\n')
    ensures Lines(s) == [DropCR(s[..i])] + Lines(RestAfter(s, i))
  {
  }

  lemma ParseStep(text: string, lines: seq<string>, prefix: string)
    ensures ParseLines([text] + lines, prefix) == Found(text, prefix) + ParseLines(lines, prefix)
  {
    assert ([text] + lines)[1..] == lines;
  }

  method ParseAnnotations(log: string, prefix: string) returns (anns: seq<Annotation>)
    ensures anns == ParseLog(log, prefix)
  {
    anns := [];
    var s := log;
    while s != ""
      invariant anns + ParseLog(s, prefix) == ParseLog(log, prefix)
      decreases |s|
    {
      var i := IndexOf(s, '\n');
      var a := ParseText(DropCR(s[..i]), prefix);
      ParseNext(anns, s, i, prefix, ParseLog(log, prefix));
      s := RestAfter(s, i);
      if a.None? {
        continue;
      }
      anns := anns + [a.value];
    }
  }

  /** One turn of the scanner's loop: the annotation of a line, or nothing to skip it. */
  method ParseText(text: string, prefix: string) returns (a: Option<Annotation>)
    ensures a == ParseLine(text, prefix)
  {
    var strs := SplitN(text, 3);
    if |strs| < 3 {
      return None;
    }
    var fn := TrimLeft(TrimPrefix(TrimSpace(strs[0]), prefix), PathDirt);
    var line := Atoi(strs[1]);
    if line == None {
      return None;
    }
    var message := "";
    var rest := SplitN(strs[2], 2);
    if |rest| == 1 {
      if rest[0] == "" || rest[0][0] != ' ' {
        return None;
      }
      message := TrimSpace(rest[0]);
    } else {
      if rest[1] == "" || rest[1][0] != ' ' {
        return None;
      }
      message := TrimSpace(rest[1]);
    }
    return Some(Annotation(fn, "notice", line.value, line.value, message));
  }

  /** One turn of the loop, in terms of what is still to be found. */
  lemma ParseNext(anns: seq<Annotation>, s: string, i: nat, prefix: string, all: seq<Annotation>)
    requires s != "" && i == IndexOf(s, '\n')
    requires anns + ParseLog(s, prefix) == all
    ensures (anns + Found(DropCR(s[..i]), prefix)) + ParseLog(RestAfter(s, i), prefix) == all
  {
    LinesStep(s, i);
    ParseStep(DropCR(s[..i]), Lines(RestAfter(s, i)), prefix);
  }

  /* ---------- what a line means ---------- */

  /** A line put together from its parts. The column is any text: the parser does not look at it. */
  function Compose(file: string, line: string, col: Option<string>, tail: string): string {
    file + ":" + (line + ":" + Rest(col, tail))
  }

  function Rest(col: Option<string>, tail: string): string {
    if col.Some? then col.value + ":" + tail else tail
  }

  predicate Parts(file: string, line: string, col: Option<string>, tail: string) {
    && ':' !in file && ':' !in line
    && (if col.Some? then ':' !in col.value else ':' !in tail)
  }

  lemma SplitOnce(a: string, b: string, n: nat)
    requires ':' !in a && n > 1
    ensures SplitN(a + ":" + b, n) == [a] + SplitN(b, n - 1)
    ensures SplitN(a, n) == [a]
  {
    IndexIs(a, ':', b);
    var s := a + ":" + b;
    assert s[..|a|] == a && s[|a| + 1..] == b;
  }

  lemma SplitRest(col: Option<string>, tail: string)
    requires if col.Some? then ':' !in col.value else ':' !in tail
    ensures var parts := SplitN(Rest(col, tail), 2); parts[|parts| - 1] == tail
  {
    if col.Some? {
      SplitOnce(col.value, tail, 2);
    } else {
      SplitOnce(tail, "", 2);
    }
  }

  lemma SplitOfParts(file: string, line: string, rest: string)
    requires ':' !in file && ':' !in line
    ensures SplitN(file + ":" + (line + ":" + rest), 3) == [file, line, rest]
  {
    SplitOnce(file, line + ":" + rest, 3);
    SplitOnce(line, rest, 2);
  }

  lemma ParseOfParts(file: string, line: string, col: Option<string>, tail: string, prefix: string)
    requires Parts(file, line, col, tail)
    ensures |SplitN(Compose(file, line, col, tail), 3)| == 3
    ensures ParseLine(Compose(file, line, col, tail), prefix) == ParseFields(file, line, [tail], prefix)
  {
    SplitOfParts(file, line, Rest(col, tail));
    SplitRest(col, tail);
  }

  lemma CutAtColon(text: string) returns (a: string, b: string)
    requires IndexOf(text, ':') < |text|
    ensures var i := IndexOf(text, ':'); a == text[..i] && b == text[i + 1..]
    ensures ':' !in a && text == a + ":" + b
  {
    FirstIndex(text, ':');
    var i := IndexOf(text, ':');
    a, b := text[..i], text[i + 1..];
  }

  /** The last field, with or without a column before it. */
  lemma LastField(rest: string) returns (col: Option<string>, tail: string)
    ensures if col.Some? then ':' !in col.value else ':' !in tail
    ensures rest == Rest(col, tail)
  {
    if IndexOf(rest, ':') < |rest| {
      var c, t := CutAtColon(rest);
      col, tail := Some(c), t;
    } else {
      FirstIndex(rest, ':');
      assert rest[..|rest|] == rest;
      col, tail := None, rest;
    }
  }

  lemma PartsOfSplit(text: string) returns (file: string, line: string, col: Option<string>, tail: string)
    requires |SplitN(text, 3)| == 3
    ensures Parts(file, line, col, tail) && text == Compose(file, line, col, tail)
  {
    var text', rest;
    file, text' := CutAtColon(text);
    line, rest := CutAtColon(text');
    col, tail := LastField(rest);
  }

  /**
    A line is an annotation exactly if it is a file, a line number and a text that starts
    with a space, with at most one more field in between; the text may contain colons only
    if that field is there.
   */
  lemma {:induction false} LineMeans(text: string, prefix: string, a: Annotation)
    ensures ParseLine(text, prefix) == Some(a) <==>
      exists file, line, col, tail ::
        && Parts(file, line, col, tail) && text == Compose(file, line, col, tail)
        && Atoi(line).Some? && tail != "" && tail[0] == ' '
        && a == Annotation(Clean(file, prefix), "notice", Atoi(line).value, Atoi(line).value, TrimSpace(tail))
  {
    if |SplitN(text, 3)| == 3 {
      var file, line, col, tail := PartsOfSplit(text);
      ParseOfParts(file, line, col, tail, prefix);
    }
    forall file, line, col, tail | Parts(file, line, col, tail) && text == Compose(file, line, col, tail)
      ensures ParseLine(text, prefix) == ParseFields(file, line, [tail], prefix)
    {
      ParseOfParts(file, line, col, tail, prefix);
    }
  }

  /* ---------- round trips ---------- */

  /** Text without white space at its ends. */
  predicate Trimmed(s: string) {
    s == "" || (!Space(s[0]) && !Space(s[|s| - 1]))
  }

  /** A file name the parser leaves alone. */
  predicate PlainPath(s: string) {
    Trimmed(s) && ':' !in s && (s == "" || !PathDirt(s[0]))
  }

  lemma TrimmedIs(s: string)
    ensures TrimSpace(s) == s <==> Trimmed(s)
  {
    var t := TrimLeft(s, Space);
    TrimLeftIs(s, Space);
    TrimRightIs(t, Space);
    if TrimSpace(s) == s {
      assert t == s[0..] == s;
    }
  }

  lemma TrimIgnoresASpace(s: string)
    ensures TrimSpace(" " + s) == TrimSpace(s)
  {
    assert (" " + s)[1..] == s;
  }

  lemma CleanIs(s: string)
    ensures Clean(s, "") == s <==> Trimmed(s) && (s == "" || !PathDirt(s[0]))
  {
    var u := TrimLeft(s, Space);
    var t := TrimSpace(s);
    TrimLeftIs(s, Space);
    TrimRightIs(u, Space);
    TrimLeftIs(t, PathDirt);
    assert t[0..] == t;
    TrimmedIs(s);
    if Clean(s, "") == s {
      assert u == s[0..] == s;
    }
  }

  predicate All(s: string, p: char -> bool) {
    forall i :: 0 <= i < |s| ==> p(s[i])
  }

  lemma {:induction false} TrimLeftOff(a: string, s: string, cut: char -> bool)
    requires All(a, cut) && (s == "" || !cut(s[0]))
    ensures TrimLeft(a + s, cut) == s
  {
    if a == "" {
      assert "" + s == s;
    } else {
      assert (a + s)[1..] == a[1..] + s;
      TrimLeftOff(a[1..], s, cut);
    }
  }

  lemma {:induction false} TrimRightOff(s: string, b: string, cut: char -> bool)
    requires All(b, cut) && (s == "" || !cut(s[|s| - 1]))
    ensures TrimRight(s + b, cut) == s
  {
    if b == "" {
      assert s + "" == s;
    } else {
      assert (s + b)[..|s + b| - 1] == s + b[..|b| - 1];
      TrimRightOff(s, b[..|b| - 1], cut);
    }
  }

  /** White space goes at both ends, and nothing else does. */
  lemma {:induction false} TrimSpaceIs(a: string, s: string, b: string)
    requires All(a, Space) && All(b, Space) && Trimmed(s)
    ensures TrimSpace(a + s + b) == s
  {
    if s == "" {
      assert All(a + b, Space) && a + s + b == (a + b) + "";
      TrimLeftOff(a + b, "", Space);
    } else {
      assert a + s + b == a + (s + b);
      TrimLeftOff(a, s + b, Space);
      TrimRightOff(s, b, Space);
    }
  }

  /** A file name loses white space around it, and the dots and slashes it starts with. */
  lemma {:induction false} CleanedIs(a: string, dirt: string, path: string, b: string)
    requires All(a, Space) && All(b, Space) && All(dirt, PathDirt)
    requires path != "" && Trimmed(path) && !PathDirt(path[0])
    ensures Clean(a + (dirt + path) + b, "") == path
  {
    assert Trimmed(dirt + path) by { assert dirt != "" ==> PathDirt(dirt[0]); }
    TrimSpaceIs(a, dirt + path, b);
    TrimLeftOff(dirt, path, PathDirt);
  }

  predicate InRange(n: int) {
    -MAX_INT - 1 <= n <= MAX_INT
  }

  /** An annotation as compilers print it. */
  function Print(a: Annotation, col: Option<string>): string {
    Compose(a.path, Itoa(a.startLine), col, " " + a.message)
  }

  /**
    With a column an annotation is read back if and only if its file name is plain and its
    message is trimmed; the message may be empty and may contain colons.
   */
  lemma {:induction false} PrintedWithColumn(path: string, line: int, message: string, col: string)
    requires InRange(line) && ':' !in col
    ensures var a := Notice(path, line, message);
      ParseLine(Print(a, Some(col)), "") == Some(a) <==> PlainPath(path) && Trimmed(message)
  {
    var a := Notice(path, line, message);
    AtoiOfItoa(line);
    CleanIs(path);
    TrimmedIs(message);
    TrimIgnoresASpace(message);
    if ':' !in path {
      ParseOfParts(path, Itoa(line), Some(col), " " + message, "");
    } else if ParseLine(Print(a, Some(col)), "") == Some(a) {
      ParsedPathHasNoColon(Print(a, Some(col)), "", a);
    }
  }

  /** Without a column it is read back if and only if, besides, its message has no colon. */
  lemma {:induction false} PrintedWithoutColumn(path: string, line: int, message: string)
    requires InRange(line)
    ensures var a := Notice(path, line, message);
      ParseLine(Print(a, None), "") == Some(a) <==> PlainPath(path) && Trimmed(message) && ':' !in message
  {
    var a := Notice(path, line, message);
    AtoiOfItoa(line);
    CleanIs(path);
    TrimmedIs(message);
    TrimIgnoresASpace(message);
    if ':' in path {
      if ParseLine(Print(a, None), "") == Some(a) { ParsedPathHasNoColon(Print(a, None), "", a); }
    } else if ':' !in message {
      ParseOfParts(path, Itoa(line), None, " " + message, "");
    } else {
      ColonEatsTheStart(path, line, message);
    }
  }

  /** What stands before the first colon of the message is taken for a column. */
  lemma ColonEatsTheStart(path: string, line: int, message: string)
    requires InRange(line) && ':' !in path && ':' in message
    ensures var a := ParseLine(Print(Notice(path, line, message), None), "");
      a.Some? ==> |a.value.message| < |message|
  {
    AtoiOfItoa(line);
    var m := " " + message;
    assert m[1..] == message;
    assert ':' in m && m[..|m|] == m by { assert m[|m| - |message|..] == message; }
    FirstIndex(m, ':');
    var col, tail := CutAtColon(m);
    ParseOfParts(path, Itoa(line), Some(col), tail, "");
    TrimShortens(tail);
    assert col != "";
  }

  lemma TrimShortens(s: string)
    ensures |TrimSpace(s)| <= |s|
  {
    TrimLeftIs(s, Space);
    TrimRightIs(TrimLeft(s, Space), Space);
  }

  lemma ParsedPathHasNoColon(text: string, prefix: string, a: Annotation)
    requires ParseLine(text, prefix) == Some(a)
    ensures ':' !in a.path
  {
    var file, line, col, tail := PartsOfSplit(text);
    ParseOfParts(file, line, col, tail, prefix);
    CleanKeeps(file, prefix);
  }

  lemma CleanKeeps(s: string, prefix: string)
    ensures forall c :: c in Clean(s, prefix) ==> c in s
  {
    var t := TrimSpace(s);
    TrimLeftIs(s, Space);
    TrimRightIs(TrimLeft(s, Space), Space);
    TrimLeftIs(TrimPrefix(t, prefix), PathDirt);
    assert forall c :: c in t ==> c in s;
    assert forall c :: c in TrimPrefix(t, prefix) ==> c in t;
  }

  /** A line of a log: an annotation, with or without column, or anything else. */
  datatype Item = Printed(path: string, line: int, col: Option<string>, message: string) | Noise(text: string)

  function TextOf(it: Item): string {
    match it
    case Printed(path, line, col, message) => Print(Notice(path, line, message), col)
    case Noise(text) => text
  }

  /** What can be printed so that it is read back, and other lines without annotations. */
  ghost predicate Readable(it: Item) {
    match it
    case Printed(path, line, col, message) =>
      && InRange(line) && PlainPath(path) && Trimmed(message)
      && '\n' !in path && '\n' !in message
      && (if col.Some? then ':' !in col.value && '\n' !in col.value else ':' !in message)
    case Noise(text) => '\n' !in text && DropCR(text) == text && ParseLine(text, "") == None
  }

  function Render(items: seq<Item>, eol: string): string {
    if items == [] then "" else TextOf(items[0]) + eol + Render(items[1..], eol)
  }

  function Listed(items: seq<Item>): seq<Annotation> {
    if items == [] then []
    else (if items[0].Printed? then [Notice(items[0].path, items[0].line, items[0].message)] else []) + Listed(items[1..])
  }

  /** A text without newline is one line, or none if it is empty, and a newline ends a line. */
  lemma {:induction false} LinesAre(text: string, rest: string)
    requires '\n' !in text
    ensures Lines(text + "\n" + rest) == [DropCR(text)] + Lines(rest)
    ensures Lines(text) == if text == "" then [] else [DropCR(text)]
  {
    var all := text + "\n" + rest;
    IndexIs(text, '\n', rest);
    assert all[..|text|] == text && all[|text| + 1..] == rest && text[..|text|] == text;
  }

  lemma FirstLine(text: string, eol: string, rest: string)
    requires '\n' !in text && DropCR(text) == text && (eol == "\n" || eol == "\r\n")
    ensures Lines(text + eol + rest) == [text] + Lines(rest)
  {
    if eol == "\n" {
      LinesAre(text, rest);
    } else {
      WithReturn(text, rest);
    }
  }

  lemma WithReturn(text: string, rest: string)
    requires '\n' !in text
    ensures Lines(text + "\r\n" + rest) == [text] + Lines(rest)
  {
    var before := text + ['\r'];
    LinesAre(before, rest);
    assert text + "\r\n" + rest == before + "\n" + rest;
    assert before[..|text|] == text;
  }

  lemma {:induction false} ItemIsRead(it: Item)
    requires Readable(it)
    ensures '\n' !in TextOf(it) && DropCR(TextOf(it)) == TextOf(it)
    ensures ParseLine(TextOf(it), "") == if it.Printed? then Some(Notice(it.path, it.line, it.message)) else None
  {
    if it.Printed? {
      PrintedIsALine(it.path, it.line, it.message, it.col);
      if it.col.Some? {
        PrintedWithColumn(it.path, it.line, it.message, it.col.value);
      } else {
        PrintedWithoutColumn(it.path, it.line, it.message);
      }
    }
  }

  lemma PrintedIsALine(path: string, line: int, message: string, col: Option<string>)
    requires InRange(line) && '\n' !in path && '\n' !in message && Trimmed(message)
    requires col.Some? ==> '\n' !in col.value
    ensures var text := Print(Notice(path, line, message), col); '\n' !in text && DropCR(text) == text
  {
    AtoiOfItoa(line);
    ComposeAvoids(path, Itoa(line), col, " " + message);
    assert (" " + message)[|message|] != '\r';
  }

  /** A composed line has no newline if its parts have none, and ends as its text does. */
  lemma ComposeAvoids(file: string, line: string, col: Option<string>, tail: string)
    requires '\n' !in file && '\n' !in line && '\n' !in tail && (col.Some? ==> '\n' !in col.value) && tail != ""
    ensures var text := Compose(file, line, col, tail);
      '\n' !in text && text != "" && text[|text| - 1] == tail[|tail| - 1]
  {
    var rest := Rest(col, tail);
    assert '\n' !in rest && rest[|rest| - 1] == tail[|tail| - 1];
    var more := line + ":" + rest;
    assert '\n' !in more && more[|more| - 1] == rest[|rest| - 1];
  }

  /**
    A whole log reads back as the annotations printed into it, in order, whatever other
    lines are in between and whichever line ending is used.
   */
  lemma {:induction false} LogRoundTrip(items: seq<Item>, eol: string)
    requires eol == "\n" || eol == "\r\n"
    requires forall i :: 0 <= i < |items| ==> Readable(items[i])
    ensures ParseLog(Render(items, eol), "") == Listed(items)
  {
    if items != [] {
      LogRoundTrip(items[1..], eol);
      ItemIsRead(items[0]);
      FirstLine(TextOf(items[0]), eol, Render(items[1..], eol));
      var lines := Lines(Render(items, eol));
      assert lines[1..] == Lines(Render(items[1..], eol));
    }
  }
}
