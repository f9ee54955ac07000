/**
  Sanitised names: workflow names, label values and volume names.

  A Go string is a sequence of bytes; each byte is held in a `char` with a code
  below 256. Lengths and slices are those of bytes, the sanitising patterns work on
  the runes those bytes encode.
 */
module Names {
  import opened Basics

  /* ---------- runes ---------- */

  predicate In(b: char, lo: int, hi: int) {
    lo <= b as int <= hi
  }

  /** The rune at the start of a string and its width, by Go's rules: one byte of garbage is one rune. */
  function DecodeRune(s: string): (r: (int, nat))
    requires |s| > 0
    ensures 1 <= r.1 <= |s|
  {
    var b0 := s[0] as int;
    if b0 < 0x80 then
      (b0, 1)
    else if In(s[0], 0xC2, 0xDF) && |s| > 1 && In(s[1], 0x80, 0xBF) then
      ((b0 - 0xC0) * 0x40 + (s[1] as int - 0x80), 2)
    else if In(s[0], 0xE0, 0xEF) && |s| > 2
      && In(s[1], if b0 == 0xE0 then 0xA0 else 0x80, if b0 == 0xED then 0x9F else 0xBF) && In(s[2], 0x80, 0xBF) then
      ((b0 - 0xE0) * 0x1000 + (s[1] as int - 0x80) * 0x40 + (s[2] as int - 0x80), 3)
    else if In(s[0], 0xF0, 0xF4) && |s| > 3
      && In(s[1], if b0 == 0xF0 then 0x90 else 0x80, if b0 == 0xF4 then 0x8F else 0xBF)
      && In(s[2], 0x80, 0xBF) && In(s[3], 0x80, 0xBF) then
      ((b0 - 0xF0) * 0x40000 + (s[1] as int - 0x80) * 0x1000 + (s[2] as int - 0x80) * 0x40 + (s[3] as int - 0x80), 4)
    else
      (0xFFFD, 1)
  }

  predicate Letter(c: char) { 'a' <= c <= 'z' }

  predicate LetDig(c: char) { 'a' <= c <= 'z' || '0' <= c <= '9' }

  predicate Ldh(c: char) { LetDig(c) || c == '-' }

  /**
    Lower-cases a rune and replaces what is then not in `[-a-z0-9]` by a dash. Two runes
    outside ASCII have an ASCII lower case: dotted capital I and the Kelvin sign.
   */
  function SanitizeRune(r: int): (c: char)
    ensures Ldh(c)
  {
    if 'A' as int <= r <= 'Z' as int then (r + 32) as char
    else if 'a' as int <= r <= 'z' as int || '0' as int <= r <= '9' as int || r == '-' as int then r as char
    else if r == 0x130 then 'i'
    else if r == 0x212A then 'k'
    else '-'
  }

  function Sanitize(s: string): (t: string)
    ensures |t| <= |s|
    ensures forall c :: c in t ==> Ldh(c)
  {
    if s == "" then ""
    else
      var (r, width) := DecodeRune(s);
      [SanitizeRune(r)] + Sanitize(s[width..])
  }

  /* ---------- what sanitising does to text ---------- */

  predicate Rune(r: int) {
    0 <= r <= 0x10FFFF && !(0xD800 <= r <= 0xDFFF)
  }

  /** The byte that starts an encoding, and one that continues it. */
  function Lead(mark: int, bits: int): char
    requires 0 <= bits && mark + bits < 0x100 && mark >= 0
  {
    (mark + bits) as char
  }

  function More(bits: int): char
    requires 0 <= bits < 0x40
  {
    (0x80 + bits) as char
  }

  /** UTF-8, as section 3 of RFC 3629 lays it down. */
  function Encode(r: int): (s: string)
    requires Rune(r)
    ensures 1 <= |s| <= 4
  {
    if r < 0x80 then [r as char]
    else if r < 0x800 then [Lead(0xC0, r / 0x40), More(r % 0x40)]
    else if r < 0x10000 then [Lead(0xE0, r / 0x40 / 0x40), More(r / 0x40 % 0x40), More(r % 0x40)]
    else [Lead(0xF0, r / 0x40 / 0x40 / 0x40), More(r / 0x40 / 0x40 % 0x40), More(r / 0x40 % 0x40), More(r % 0x40)]
  }

  lemma Digits64(r: int)
    requires r >= 0
    ensures r == r / 0x40 * 0x40 + r % 0x40 && 0 <= r % 0x40 < 0x40 && r / 0x40 >= 0
  {
  }

  lemma DigitsOf(hi: int, lo: int)
    requires 0 <= lo < 0x40
    ensures (hi * 0x40 + lo) / 0x40 == hi && (hi * 0x40 + lo) % 0x40 == lo
  {
  }

  lemma DecodeTwo(s: string, a: int, b: int)
    requires 2 <= a < 0x20 && 0 <= b < 0x40 && [Lead(0xC0, a), More(b)] <= s
    ensures DecodeRune(s) == (a * 0x40 + b, 2)
  {
    assert s[0] == [Lead(0xC0, a), More(b)][0] && s[1] == [Lead(0xC0, a), More(b)][1];
  }

  lemma DecodeThree(s: string, a: int, b: int, c: int)
    requires 0 <= a < 0x10 && 0 <= b < 0x40 && 0 <= c < 0x40 && [Lead(0xE0, a), More(b), More(c)] <= s
    requires (a == 0 ==> b >= 0x20) && (a == 0xD ==> b < 0x20)
    ensures DecodeRune(s) == (a * 0x1000 + b * 0x40 + c, 3)
  {
    var e := [Lead(0xE0, a), More(b), More(c)];
    assert s[0] == e[0] && s[1] == e[1] && s[2] == e[2];
  }

  lemma DecodeFour(s: string, a: int, b: int, c: int, d: int)
    requires 0 <= a <= 4 && 0 <= b < 0x40 && 0 <= c < 0x40 && 0 <= d < 0x40
    requires [Lead(0xF0, a), More(b), More(c), More(d)] <= s
    requires (a == 0 ==> b >= 0x10) && (a == 4 ==> b < 0x10)
    ensures DecodeRune(s) == (a * 0x40000 + b * 0x1000 + c * 0x40 + d, 4)
  {
    var e := [Lead(0xF0, a), More(b), More(c), More(d)];
    assert s[0] == e[0] && s[1] == e[1] && s[2] == e[2] && s[3] == e[3];
  }

  /** Decoding finds the rune whose encoding starts the string. */
  lemma {:induction false} DecodeEncoded(s: string, r: int)
    requires Rune(r) && Encode(r) <= s
    ensures DecodeRune(s) == (r, |Encode(r)|)
  {
    var hi := r / 0x40;
    Digits64(r);
    if r < 0x80 {
      assert s[0] == Encode(r)[0];
    } else if r < 0x800 {
      DecodeTwo(s, hi, r % 0x40);
    } else {
      Digits64(hi);
      if r < 0x10000 {
        DecodeThree(s, hi / 0x40, hi % 0x40, r % 0x40);
      } else {
        Digits64(hi / 0x40);
        DecodeFour(s, hi / 0x40 / 0x40, hi / 0x40 % 0x40, hi % 0x40, r % 0x40);
      }
    }
  }

  /** Anything but one byte for U+FFFD is a rune whose encoding starts the string. */
  lemma {:induction false} DecodesRunes(s: string)
    requires s != "" && DecodeRune(s) != (0xFFFD, 1)
    ensures var (r, width) := DecodeRune(s); Rune(r) && Encode(r) == s[..width]
  {
    var b0 := s[0] as int;
    if b0 < 0x80 {
      assert [s[0]] == s[..1];
    } else if b0 < 0xE0 {
      EncodeTwo(s[0], s[1]);
      assert [s[0], s[1]] == s[..2];
    } else if b0 < 0xF0 {
      EncodeThree(s[0], s[1], s[2]);
      assert [s[0], s[1], s[2]] == s[..3];
    } else {
      EncodeFour(s[0], s[1], s[2], s[3]);
      assert [s[0], s[1], s[2], s[3]] == s[..4];
    }
  }

  lemma EncodeTwo(c0: char, c1: char)
    requires In(c0, 0xC2, 0xDF) && In(c1, 0x80, 0xBF)
    ensures var r := (c0 as int - 0xC0) * 0x40 + (c1 as int - 0x80); Rune(r) && Encode(r) == [c0, c1]
  {
    DigitsOf(c0 as int - 0xC0, c1 as int - 0x80);
  }

  lemma EncodeThree(c0: char, c1: char, c2: char)
    requires In(c0, 0xE0, 0xEF) && In(c1, if c0 as int == 0xE0 then 0xA0 else 0x80, if c0 as int == 0xED then 0x9F else 0xBF)
    requires In(c2, 0x80, 0xBF)
    ensures var r := (c0 as int - 0xE0) * 0x1000 + (c1 as int - 0x80) * 0x40 + (c2 as int - 0x80);
      Rune(r) && Encode(r) == [c0, c1, c2]
  {
    DigitsOf(c0 as int - 0xE0, c1 as int - 0x80);
    DigitsOf((c0 as int - 0xE0) * 0x40 + (c1 as int - 0x80), c2 as int - 0x80);
  }

  lemma EncodeFour(c0: char, c1: char, c2: char, c3: char)
    requires In(c0, 0xF0, 0xF4) && In(c1, if c0 as int == 0xF0 then 0x90 else 0x80, if c0 as int == 0xF4 then 0x8F else 0xBF)
    requires In(c2, 0x80, 0xBF) && In(c3, 0x80, 0xBF)
    ensures var r := (c0 as int - 0xF0) * 0x40000 + (c1 as int - 0x80) * 0x1000 + (c2 as int - 0x80) * 0x40 + (c3 as int - 0x80);
      Rune(r) && Encode(r) == [c0, c1, c2, c3]
  {
    var hi := (c0 as int - 0xF0) * 0x40 + (c1 as int - 0x80);
    DigitsOf(c0 as int - 0xF0, c1 as int - 0x80);
    DigitsOf(hi, c2 as int - 0x80);
    DigitsOf(hi * 0x40 + (c2 as int - 0x80), c3 as int - 0x80);
  }

  function Utf8(rs: seq<int>): string
    requires forall r :: r in rs ==> Rune(r)
  {
    if rs == [] then "" else Encode(rs[0]) + Utf8(rs[1..])
  }

  /** Capitals lose their size, what a label may not have becomes a dash, everything else stays. */
  predicate Sanitized(r: int, c: char) {
    if 0x61 <= r <= 0x7A || 0x30 <= r <= 0x39 || r == 0x2D then c as int == r
    else if 0x41 <= r <= 0x5A then c as int == r + 0x20
    else if r == 0x130 then c == 'i'
    else if r == 0x212A then c == 'k'
    else c == '-'
  }

  /** Text is sanitised rune by rune. */
  lemma {:induction false} SanitizeIs(rs: seq<int>)
    requires forall r :: r in rs ==> Rune(r)
    ensures var t := Sanitize(Utf8(rs)); |t| == |rs| && forall i :: 0 <= i < |rs| ==> Sanitized(rs[i], t[i])
  {
    if rs != [] {
      var s, rest := Utf8(rs), Utf8(rs[1..]);
      DecodeEncoded(s, rs[0]);
      assert s[|Encode(rs[0])|..] == rest;
      SanitizeIs(rs[1..]);
      var t := Sanitize(s);
      forall i | 0 <= i < |rs| ensures Sanitized(rs[i], t[i]) {
        if i > 0 { assert rs[i] == rs[1..][i - 1] && t[i] == Sanitize(rest)[i - 1]; }
      }
    }
  }

  /** Where no rune is encoded, one byte is given up for a dash. */
  lemma {:induction false} GarbageIsADash(s: string)
    requires s != "" && forall r :: Rune(r) ==> !(Encode(r) <= s)
    ensures Sanitize(s) == "-" + Sanitize(s[1..])
  {
    if DecodeRune(s) != (0xFFFD, 1) { StartsWithARune(s); }
  }

  lemma StartsWithARune(s: string)
    requires s != "" && DecodeRune(s) != (0xFFFD, 1)
    ensures exists r :: Rune(r) && Encode(r) <= s
  {
    DecodesRunes(s);
    assert Rune(DecodeRune(s).0) && Encode(DecodeRune(s).0) <= s;
  }

  /* ---------- trimming ---------- */

  /** The class `[-.0-9]`. */
  predicate NotFirst(c: char) { c == '-' || c == '.' || '0' <= c <= '9' }

  /** The class `[-.]`. */
  predicate NotLast(c: char) { c == '-' || c == '.' }

  function TrimStart(s: string): string {
    if s != "" && NotFirst(s[0]) then TrimStart(s[1..]) else s
  }

  function TrimEnd(s: string): string {
    if s != "" && NotLast(s[|s| - 1]) then TrimEnd(s[..|s| - 1]) else s
  }

  lemma {:induction false} TrimStartIs(s: string) returns (k: nat)
    ensures k <= |s| && TrimStart(s) == s[k..]
    ensures forall i :: 0 <= i < k ==> NotFirst(s[i])
    ensures k < |s| ==> !NotFirst(s[k])
  {
    if s != "" && NotFirst(s[0]) {
      var k' := TrimStartIs(s[1..]);
      k := k' + 1;
      assert s[1..][k'..] == s[k..];
      forall i | 0 <= i < k ensures NotFirst(s[i]) {
        if i > 0 { assert s[i] == s[1..][i - 1]; }
      }
    } else {
      k := 0;
      assert s[0..] == s;
    }
  }

  lemma {:induction false} TrimEndIs(s: string) returns (k: nat)
    ensures k <= |s| && TrimEnd(s) == s[..k]
    ensures forall i :: k <= i < |s| ==> NotLast(s[i])
    ensures k > 0 ==> !NotLast(s[k - 1])
  {
    if s != "" && NotLast(s[|s| - 1]) {
      k := TrimEndIs(s[..|s| - 1]);
      assert s[..|s| - 1][..k] == s[..k];
      forall i | k <= i < |s| ensures NotLast(s[i]) {
        if i < |s| - 1 { assert s[i] == s[..|s| - 1][i]; }
      }
    } else {
      k := |s|;
      assert s[..k] == s;
    }
  }

  /* ---------- escape ---------- */

  function Escape(s: string): string {
    TrimEnd(TrimStart(TrimStart(Sanitize(s))))
  }

  /** A label by the grammar of section 2.3.1 of RFC 1035, in lower case. */
  predicate Label(s: string) {
    |s| > 0 && Letter(s[0]) && LetDig(s[|s| - 1]) && forall i :: 0 <= i < |s| ==> Ldh(s[i])
  }

  /**
    `escape` keeps exactly the stretch from the first letter of the sanitised string to
    its last letter or digit, which is nothing or a label, and never grows.
   */
  lemma {:induction false} EscapeIs(s: string) returns (pre: string, post: string)
    ensures Escape(s) == "" || Label(Escape(s))
    ensures |Escape(s)| <= |s|
    ensures Sanitize(s) == pre + Escape(s) + post
    ensures forall i :: 0 <= i < |pre| ==> !Letter(pre[i])
    ensures forall i :: 0 <= i < |post| ==> !LetDig(post[i])
  {
    var t := Sanitize(s);
    var k, j := Stretch(t);
    pre, post := t[..k], t[k + j..];
    ThreePieces(t, k, j);
  }

  lemma ThreePieces(t: string, k: nat, j: nat)
    requires k + j <= |t|
    ensures t[..k] + t[k..k + j] + t[k + j..] == t
  {
  }

  lemma Stretch(t: string) returns (k: nat, j: nat)
    requires forall c :: c in t ==> Ldh(c)
    ensures k + j <= |t| && TrimEnd(TrimStart(TrimStart(t))) == t[k..k + j]
    ensures t[k..k + j] == "" || Label(t[k..k + j])
    ensures forall i :: 0 <= i < k ==> !Letter(t[i])
    ensures forall i :: k + j <= i < |t| ==> !LetDig(t[i])
  {
    TrimStartOnce(t);
    k := TrimStartIs(t);
    var u := t[k..];
    j := TrimEndIs(u);
    assert u[..j] == t[k..k + j];
    forall i | k + j <= i < |t| ensures !LetDig(t[i]) { assert NotLast(u[i - k]); }
    StretchIsLabel(t, k, j);
  }

  lemma TrimStartOnce(t: string)
    ensures TrimStart(TrimStart(t)) == TrimStart(t)
  {
    var k := TrimStartIs(t);
    if k < |t| { assert t[k..][0] == t[k]; }
  }

  lemma StretchIsLabel(t: string, k: nat, j: nat)
    requires k <= |t| && j <= |t| - k
    requires forall c :: c in t ==> Ldh(c)
    requires k < |t| ==> !NotFirst(t[k])
    requires j > 0 ==> !NotLast(t[k..][j - 1])
    ensures t[k..][..j] == "" || Label(t[k..][..j])
  {
    var e := t[k..][..j];
    forall i | 0 <= i < |e| ensures Ldh(e[i]) { assert e[i] == t[k + i] && t[k + i] in t; }
    if e != "" { assert e[0] == t[k] && e[|e| - 1] == t[k..][j - 1]; }
  }

  lemma {:induction false} SanitizeKeeps(s: string)
    requires forall i :: 0 <= i < |s| ==> Ldh(s[i])
    ensures Sanitize(s) == s
    decreases |s|
  {
    if s != "" {
      assert Ldh(s[0]);
      forall i | 0 <= i < |s[1..]| ensures Ldh(s[1..][i]) { assert Ldh(s[i + 1]); }
      SanitizeKeeps(s[1..]);
    }
  }

  /** Labels are left alone, so escaping twice is escaping once. */
  lemma {:induction false} EscapeKeepsLabels(s: string)
    requires Label(s)
    ensures Escape(s) == s
  {
    SanitizeKeeps(s);
  }

  /* ---------- dotted names ---------- */

  function Join(parts: seq<string>): string {
    if |parts| == 0 then "" else if |parts| == 1 then parts[0] else parts[0] + "." + Join(parts[1..])
  }

  /** What is between the dots. */
  function SplitDots(s: string): (parts: seq<string>)
    ensures |parts| > 0
  {
    if s == "" then [""]
    else
      var rest := SplitDots(s[1..]);
      if s[0] == '.' then [""] + rest else [[s[0]] + rest[0]] + rest[1..]
  }

  lemma {:induction false} SplitPart(a: string, b: string)
    requires '.' !in a
    ensures SplitDots(a) == [a] && SplitDots(a + "." + b) == [a] + SplitDots(b)
  {
    if a == "" {
      assert ("" + "." + b)[1..] == b;
    } else {
      var s := a + "." + b;
      assert s[0] == a[0] && s[1..] == a[1..] + "." + b;
      assert a[0] in a && [a[0]] + a[1..] == a;
      SplitPart(a[1..], b);
      assert SplitDots(a) == [[a[0]] + a[1..]] + [];
    }
  }

  /** Every part is between its dots, in order. */
  lemma {:induction false} JoinSplits(parts: seq<string>)
    requires parts != [] && forall p :: p in parts ==> '.' !in p
    ensures SplitDots(Join(parts)) == parts
    decreases |parts|
  {
    assert parts[0] in parts;
    if |parts| == 1 {
      SplitPart(parts[0], "");
    } else {
      JoinSplits(parts[1..]);
      SplitPart(parts[0], Join(parts[1..]));
    }
  }

  ghost predicate LabelsOnly(s: string) {
    forall p :: p in SplitDots(s) ==> Label(p)
  }

  /** A character of a dotted name; a dot stands between a letter or digit and a letter. */
  predicate CharOk(s: string, i: int)
    requires 0 <= i < |s|
  {
    Ldh(s[i]) || (s[i] == '.' && i < |s| - 1 && (i > 0 ==> LetDig(s[i - 1])) && Letter(s[i + 1]))
  }

  /** A tail of a dotted name, which may start inside a label or at a dot. */
  predicate DottedTail(s: string) {
    |s| > 0 && LetDig(s[|s| - 1]) && forall i :: 0 <= i < |s| ==> CharOk(s, i)
  }

  /** Labels separated by dots, read off the characters. */
  predicate Dotted(s: string) {
    DottedTail(s) && Letter(s[0])
  }

  lemma TailOfTail(s: string, k: nat)
    requires DottedTail(s) && k < |s|
    ensures DottedTail(s[k..])
  {
    var t := s[k..];
    assert t[|t| - 1] == s[|s| - 1];
    forall i | 0 <= i < |t| ensures CharOk(t, i) {
      assert CharOk(s, k + i);
    }
  }

  lemma {:induction false} DottedSplits(s: string)
    requires DottedTail(s)
    ensures var parts := SplitDots(s);
      && (forall j :: 1 <= j < |parts| ==> Label(parts[j]))
      && (forall i :: 0 <= i < |parts[0]| ==> Ldh(parts[0][i]))
      && (parts[0] == "" <==> s[0] == '.')
      && (parts[0] != "" ==> parts[0][0] == s[0] && LetDig(parts[0][|parts[0]| - 1]))
    decreases |s|
  {
    var parts, t := SplitDots(s), s[1..];
    assert CharOk(s, 0);
    if |s| == 1 {
      assert SplitDots(t) == [""];
      assert parts[0] == [s[0]];
    } else {
      TailOfTail(s, 1);
      DottedSplits(t);
      var rest := SplitDots(t);
      if s[0] == '.' {
        assert Letter(t[0]);
        assert Label(rest[0]);
      } else {
        assert parts[0] == [s[0]] + rest[0];
        if rest[0] == "" { assert CharOk(s, 1); }
      }
    }
  }

  lemma {:induction false} DottedIsLabelsOnly(s: string)
    requires Dotted(s)
    ensures LabelsOnly(s)
  {
    DottedSplits(s);
    var parts := SplitDots(s);
    assert Label(parts[0]);
  }

  lemma {:induction false} JoinIsDotted(parts: seq<string>)
    requires |parts| > 0 && forall p :: p in parts ==> Label(p)
    ensures Dotted(Join(parts))
    decreases |parts|
  {
    if |parts| == 1 {
      assert parts[0] in parts;
    } else {
      var a, b := parts[0], Join(parts[1..]);
      assert a in parts;
      JoinIsDotted(parts[1..]);
      var s := a + "." + b;
      forall i | 0 <= i < |s| ensures CharOk(s, i) {
        if i > |a| { assert CharOk(b, i - |a| - 1); }
      }
    }
  }

  /* ---------- labelSafeLen ---------- */

  function EscapeAll(strs: seq<string>): (parts: seq<string>) {
    if strs == [] then []
    else (if Escape(strs[0]) == "" then [] else [Escape(strs[0])]) + EscapeAll(strs[1..])
  }

  function Joined(strs: seq<string>): string {
    Join(EscapeAll(strs))
  }

  /** What `labelSafeLen` returns: the tail that fits, tidied at both ends. */
  function LabelSafe(maxLen: nat, strs: seq<string>): string {
    var str := Joined(strs);
    TrimEnd(TrimStart(if |str| > maxLen then str[|str| - maxLen..] else str))
  }

  lemma {:induction false} EscapeAllLabels(strs: seq<string>)
    ensures forall p :: p in EscapeAll(strs) ==> Label(p)
  {
    if strs != [] {
      var pre, post := EscapeIs(strs[0]);
      EscapeAllLabels(strs[1..]);
    }
  }

  lemma {:induction false} EscapeAllAppend(strs: seq<string>, s: string)
    ensures EscapeAll(strs + [s]) == EscapeAll(strs) + (if Escape(s) == "" then [] else [Escape(s)])
  {
    if strs != [] {
      assert (strs + [s])[1..] == strs[1..] + [s];
      EscapeAllAppend(strs[1..], s);
    } else {
      assert (strs + [s])[1..] == [];
    }
  }

  /** What is left of one string. */
  function Kept(s: string): seq<string> {
    if Escape(s) == "" then [] else [Escape(s)]
  }

  /** The joined labels are, between their dots, what is left of the strings, in order. */
  lemma {:induction false} JoinedIs(strs: seq<string>) returns (parts: seq<seq<string>>)
    ensures |parts| == |strs| && forall i :: 0 <= i < |strs| ==> parts[i] == Kept(strs[i])
    ensures if Flatten(parts) == [] then Joined(strs) == "" else SplitDots(Joined(strs)) == Flatten(parts)
  {
    parts := AllKept(strs);
    if EscapeAll(strs) != [] { JoinedSplits(strs); }
  }

  lemma JoinedSplits(strs: seq<string>)
    requires EscapeAll(strs) != []
    ensures SplitDots(Joined(strs)) == EscapeAll(strs)
  {
    EscapeAllLabels(strs);
    forall p | p in EscapeAll(strs) ensures '.' !in p { assert Label(p); }
    JoinSplits(EscapeAll(strs));
  }

  lemma EscapeFrom(strs: seq<string>, i: nat)
    requires i < |strs|
    ensures EscapeAll(strs[i..]) == Kept(strs[i]) + EscapeAll(strs[i + 1..])
  {
    assert strs[i..][1..] == strs[i + 1..];
  }

  /** What is left of the last four strings. */
  lemma EscapeFour(strs: seq<string>, i: nat)
    requires |strs| == i + 4
    ensures EscapeAll(strs[i..]) == Kept(strs[i]) + Kept(strs[i + 1]) + Kept(strs[i + 2]) + Kept(strs[i + 3])
  {
    EscapeThree(strs, i + 1);
    EscapeFrom(strs, i);
    Regroup(Kept(strs[i]), Kept(strs[i + 1]), Kept(strs[i + 2]), Kept(strs[i + 3]));
  }

  lemma EscapeThree(strs: seq<string>, i: nat)
    requires |strs| == i + 3
    ensures EscapeAll(strs[i..]) == Kept(strs[i]) + Kept(strs[i + 1]) + Kept(strs[i + 2])
  {
    EscapeFrom(strs, i);
    EscapeFrom(strs, i + 1);
    EscapeFrom(strs, i + 2);
    Regroup(Kept(strs[i]), Kept(strs[i + 1]), Kept(strs[i + 2]), []);
  }

  lemma Regroup<T>(a: seq<T>, b: seq<T>, c: seq<T>, d: seq<T>)
    ensures a + (b + c + d) == a + b + c + d && a + (b + (c + [])) == a + b + c
  {
  }

  lemma {:induction false} AllKept(strs: seq<string>) returns (parts: seq<seq<string>>)
    ensures |parts| == |strs| && forall i :: 0 <= i < |strs| ==> parts[i] == Kept(strs[i])
    ensures EscapeAll(strs) == Flatten(parts)
  {
    if strs == [] {
      parts := [];
    } else {
      var rest := AllKept(strs[1..]);
      parts := [Kept(strs[0])] + rest;
      assert parts[1..] == rest;
    }
  }

  lemma {:induction false} JoinedShape(strs: seq<string>)
    ensures Joined(strs) == "" || Dotted(Joined(strs))
  {
    EscapeAllLabels(strs);
    if EscapeAll(strs) != [] { JoinIsDotted(EscapeAll(strs)); }
  }

  /** `r` ends `s`. */
  predicate Suffix(r: string, s: string) {
    |r| <= |s| && s[|s| - |r|..] == r
  }

  /**
    For any strings and any bound the result is the longest tail of the joined labels
    that fits and starts with a letter; it is empty or a sequence of labels.
   */
  lemma {:induction false} LabelSafeIs(maxLen: nat, strs: seq<string>)
    ensures var r, full := LabelSafe(maxLen, strs), Joined(strs);
      && |r| <= maxLen
      && (r == "" || (Dotted(r) && LabelsOnly(r)))
      && Suffix(r, full)
      && (forall k :: 0 <= k < |full| && |full| - k <= maxLen && Letter(full[k]) ==> |full| - k <= |r|)
      && (|full| <= maxLen ==> r == full)
  {
    var full := Joined(strs);
    JoinedShape(strs);
    var cut := if |full| > maxLen then |full| - maxLen else 0;
    assert full[0..] == full;
    var k := TidyTail(full, cut);
    var r := LabelSafe(maxLen, strs);
    if r != "" {
      DottedIsLabelsOnly(r);
    }
    assert full == "" || Letter(full[0]);
  }

  /** Tidying a tail of a dotted name drops what precedes its first letter, and nothing at the end. */
  lemma {:induction false} TidyTail(full: string, cut: nat) returns (k: nat)
    requires full == "" || Dotted(full)
    requires cut <= |full|
    ensures cut <= k <= |full| && TrimEnd(TrimStart(full[cut..])) == full[k..]
    ensures forall p :: cut <= p < k ==> NotFirst(full[p])
    ensures k < |full| ==> Dotted(full[k..])
  {
    var tail := full[cut..];
    var j := TrimStartIs(tail);
    k := cut + j;
    SameTail(full, cut, j);
    forall p | cut <= p < k ensures NotFirst(full[p]) { assert full[p] == tail[p - cut]; }
    if k < |full| {
      FirstOfTail(full, cut, j);
      TailOfTail(full, k);
      NothingToTrim(full[k..]);
    }
  }

  lemma SameTail(full: string, cut: nat, j: nat)
    requires cut + j <= |full|
    ensures full[cut..][j..] == full[cut + j..]
  {
  }

  /** Where trimming stops, a dotted name has a letter. */
  lemma FirstOfTail(full: string, cut: nat, j: nat)
    requires Dotted(full) && cut + j < |full| && !NotFirst(full[cut..][j])
    ensures Letter(full[cut + j])
  {
    assert CharOk(full, cut + j) && full[cut + j] == full[cut..][j];
  }

  lemma NothingToTrim(s: string)
    requires s != "" && LetDig(s[|s| - 1])
    ensures TrimEnd(s) == s
  {
  }

  /** A label that fits is its own label value. */
  lemma {:induction false} LabelIsSafe(maxLen: nat, s: string)
    requires Label(s) && |s| <= maxLen
    ensures LabelSafe(maxLen, [s]) == s
  {
    EscapeKeepsLabels(s);
    EscapeAllAppend([], s);
    assert [] + [s] == [s];
    LabelSafeIs(maxLen, [s]);
  }

  method LabelSafeLen(maxLen: nat, strs: seq<string>) returns (str: string)
    ensures str == LabelSafe(maxLen, strs)
  {
    var escStrs: seq<string> := [];
    var i := 0;
    while i < |strs|
      invariant 0 <= i <= |strs|
      invariant escStrs == EscapeAll(strs[..i])
    {
      assert strs[..i + 1] == strs[..i] + [strs[i]];
      EscapeAllAppend(strs[..i], strs[i]);
      var e := Escape(strs[i]);
      i := i + 1;
      if |e| == 0 {
        continue;
      }
      escStrs := escStrs + [e];
    }
    assert strs[..i] == strs;
    str := Join(escStrs);
    if |str| > maxLen {
      var strOver := maxLen - |str|;
      str := str[strOver * -1..];
    }
    str := TrimStart(str);
    str := TrimEnd(str);
  }

  /* ---------- names that end in a hash ---------- */

  predicate Base64Url(s: string) {
    forall i :: 0 <= i < |s| ==> 'A' <= s[i] <= 'Z' || 'a' <= s[i] <= 'z' || '0' <= s[i] <= '9' || s[i] == '-' || s[i] == '_'
  }

  /** The shape of `hash` and of the hash in `wfName`: an x and eight characters of base64. */
  predicate HashShape(h: string) {
    |h| == 9 && h[0] == 'x' && Base64Url(h)
  }

  /** Escaping a hash keeps all of it but dashes at its end. */
  lemma {:induction false} HashSurvives(h: string) returns (dashes: string)
    requires HashShape(h)
    ensures Escape(h) != "" && Escape(h)[0] == 'x' && Label(Escape(h))
    ensures Sanitize(h) == Escape(h) + dashes && forall i :: 0 <= i < |dashes| ==> dashes[i] == '-'
  {
    var pre;
    pre, dashes := EscapeIs(h);
    var t := Sanitize(h);
    assert t[0] == 'x' && t[0] == (pre + Escape(h) + dashes)[0];
    assert pre == "";
    assert t == Escape(h) + dashes;
    forall i | 0 <= i < |dashes| ensures dashes[i] == '-' {
      assert dashes[i] == t[|Escape(h)| + i] && t[|Escape(h)| + i] in t;
    }
  }

  /** `p` is all of `s`, or ends it after a dot. */
  predicate LastPart(p: string, s: string) {
    Suffix(p, s) && (|s| > |p| ==> s[|s| - |p| - 1] == '.')
  }

  lemma {:induction false} JoinEndsWith(parts: seq<string>, p: string)
    ensures LastPart(p, Join(parts + [p]))
  {
    if parts != [] {
      assert (parts + [p])[1..] == parts[1..] + [p];
      JoinEndsWith(parts[1..], p);
    }
  }

  lemma LastPartOfTail(a: string, b: string, s: string)
    requires LastPart(a, s) && Suffix(b, s) && |a| <= |b|
    ensures LastPart(a, b)
  {
    var c := s[|s| - |b|..];
    assert c[|b| - |a|..] == s[|s| - |a|..];
  }

  /** The last string survives whole if it fits: as the whole name or after a dot. */
  lemma {:induction false} LastPartSurvives(maxLen: nat, strs: seq<string>, s: string)
    requires Label(Escape(s)) && |Escape(s)| <= maxLen
    ensures LastPart(Escape(s), LabelSafe(maxLen, strs + [s]))
  {
    var all, e := strs + [s], Escape(s);
    var full, r := Joined(all), LabelSafe(maxLen, all);
    EscapeAllAppend(strs, s);
    JoinEndsWith(EscapeAll(strs), e);
    LabelSafeIs(maxLen, all);
    FittingTail(maxLen, e, r, full);
    LastPartOfTail(e, r, full);
  }

  lemma FittingTail(maxLen: nat, e: string, r: string, full: string)
    requires Suffix(e, full) && Label(e) && |e| <= maxLen
    requires forall k :: 0 <= k < |full| && |full| - k <= maxLen && Letter(full[k]) ==> |full| - k <= |r|
    ensures |e| <= |r|
  {
    assert full[|full| - |e|] == full[|full| - |e|..][0];
  }

  function TotalLength(strs: seq<string>): nat {
    if strs == [] then 0 else |strs[0]| + TotalLength(strs[1..])
  }

  /** Escaping does not grow and every part costs at most one dot. */
  lemma {:induction false} JoinedLength(strs: seq<string>)
    ensures |Joined(strs)| <= TotalLength(strs) + (if |strs| > 0 then |strs| - 1 else 0)
  {
    if strs != [] {
      var pre, post := EscapeIs(strs[0]);
      JoinedLength(strs[1..]);
      var e, rest := Escape(strs[0]), EscapeAll(strs[1..]);
      if e == "" {
        assert EscapeAll(strs) == rest;
      } else if rest == [] {
        assert EscapeAll(strs) == [e];
      } else {
        assert EscapeAll(strs)[1..] == rest;
        assert |strs| > 1;
      }
    }
  }

  function Prefix(s: string, n: nat): (p: string)
    ensures |p| <= n && |p| <= |s| && p == s[..|p|]
  {
    if |s| > n then s[..n] else s
  }

  /** The strings a workflow name is made of: what is left of 50 after the rest goes to the ref. */
  function WfParts(repo: string, entrypoint: string, ref: string, hash: string): seq<string>
    requires |hash| == 9
  {
    var r := Prefix(repo, if entrypoint != "" then 15 else 20);
    if entrypoint == "" then
      [r, Prefix(ref, 39 - |r|), hash]
    else
      var e := Prefix(entrypoint, 15);
      [r, e, Prefix(ref, 38 - |r| - |e|), hash]
  }

  /** The longest beginning of `s` that fits. */
  predicate Cut(p: string, s: string, n: int) {
    p <= s && if |s| <= n then p == s else |p| == n
  }

  /**
    A workflow name is, between its dots, what is left of the repository, the entrypoint,
    the ref and the hash, each cut to its share of 50 characters.
   */
  ghost predicate NamesRun(name: string, repo: string, entrypoint: string, ref: string, hash: string) {
    exists r, e, f ::
      && Cut(r, repo, if entrypoint == "" then 20 else 15) && Cut(e, entrypoint, 15)
      && Cut(f, ref, if entrypoint == "" then 39 - |r| else 38 - |r| - |e|)
      && SplitDots(name) == Kept(r) + Kept(e) + Kept(f) + [Escape(hash)]
  }

  lemma NamesRunIs(repo: string, entrypoint: string, ref: string, hash: string)
    requires HashShape(hash)
    ensures NamesRun(Joined(WfParts(repo, entrypoint, ref, hash)), repo, entrypoint, ref, hash)
  {
    var dashes := HashSurvives(hash);
    var parts := WfParts(repo, entrypoint, ref, hash);
    var r, e, f := parts[0], Prefix(entrypoint, 15), parts[|parts| - 2];
    if entrypoint == "" { SplitThree(parts); } else { SplitFour(parts); }
    WithoutEntrypoint(r, e, f, hash);
    assert Cut(r, repo, if entrypoint == "" then 20 else 15) && Cut(e, entrypoint, 15);
    assert Cut(f, ref, if entrypoint == "" then 39 - |r| else 38 - |r| - |e|);
  }

  lemma WithoutEntrypoint(r: string, e: string, f: string, hash: string)
    requires Escape(hash) != ""
    ensures Kept(hash) == [Escape(hash)]
    ensures e == "" ==> Kept(r) + Kept(e) + Kept(f) == Kept(r) + Kept(f)
  {
  }

  lemma SplitThree(strs: seq<string>)
    requires |strs| == 3 && Kept(strs[2]) != []
    ensures SplitDots(Joined(strs)) == Kept(strs[0]) + Kept(strs[1]) + Kept(strs[2])
  {
    assert strs[0..] == strs;
    EscapeThree(strs, 0);
    JoinedSplits(strs);
  }

  lemma SplitFour(strs: seq<string>)
    requires |strs| == 4 && Kept(strs[3]) != []
    ensures SplitDots(Joined(strs)) == Kept(strs[0]) + Kept(strs[1]) + Kept(strs[2]) + Kept(strs[3])
  {
    assert strs[0..] == strs;
    EscapeFour(strs, 0);
    JoinedSplits(strs);
  }

  lemma SplitFive(strs: seq<string>)
    requires |strs| == 5 && Kept(strs[4]) != []
    ensures SplitDots(Joined(strs)) == Kept(strs[0]) + Kept(strs[1]) + Kept(strs[2]) + Kept(strs[3]) + Kept(strs[4])
  {
    assert strs[0..] == strs;
    EscapeFrom(strs, 0);
    EscapeFour(strs, 1);
    RegroupFive(Kept(strs[0]), Kept(strs[1]), Kept(strs[2]), Kept(strs[3]), Kept(strs[4]));
    JoinedSplits(strs);
  }

  /**
    The name of a workflow. `digest` is the base64 digest of random bytes and the
    arguments. For every input the slices are in range, the parts fit without being
    cut again, and the name is a sequence of labels that ends in the whole hash.
   */
  method WfName(repo: string, entrypoint: string, ref: string, digest: string) returns (name: string)
    requires |digest| >= 8 && Base64Url(digest)
    ensures NamesRun(name, repo, entrypoint, ref, "x" + digest[..8])
    ensures 0 < |name| <= 50 && Dotted(name) && LabelsOnly(name)
    ensures var h := Escape("x" + digest[..8]);
      && h != "" && h[0] == 'x' && LastPart(h, name)
  {
    var hashStr := "x" + digest[0..8];
    var maxLen := 50 - |hashStr|;
    maxLen := maxLen - 1;
    var maxRepoName := 20;
    if entrypoint != "" {
      maxRepoName := 15;
    }
    var repo' := repo;
    if |repo'| > maxRepoName {
      repo' := repo'[0..maxRepoName];
    }
    maxLen := maxLen - |repo'|;
    maxLen := maxLen - 1;
    var parts := [repo'];
    if entrypoint != "" {
      var entrypoint' := entrypoint;
      if |entrypoint'| > 15 {
        entrypoint' := entrypoint'[0..15];
      }
      maxLen := maxLen - |entrypoint'|;
      maxLen := maxLen - 1;
      parts := parts + [entrypoint'];
    }
    var ref' := ref;
    if |ref'| > maxLen {
      ref' := ref'[0..maxLen];
    }
    parts := parts + [ref'];
    ghost var front := parts;
    parts := parts + [hashStr];
    assert parts == WfParts(repo, entrypoint, ref, hashStr);
    name := LabelSafeLen(50, parts);
    WfNameIs(repo, entrypoint, ref, hashStr, front);
  }

  lemma {:induction false} WfNameIs(repo: string, entrypoint: string, ref: string, hash: string, front: seq<string>)
    requires HashShape(hash) && WfParts(repo, entrypoint, ref, hash) == front + [hash]
    ensures var name, h := LabelSafe(50, front + [hash]), Escape(hash);
      && NamesRun(name, repo, entrypoint, ref, hash)
      && 0 < |name| <= 50 && Dotted(name) && LabelsOnly(name)
      && h != "" && h[0] == 'x' && LastPart(h, name)
  {
    WfPartsFit(repo, entrypoint, ref, hash);
    NamesRunIs(repo, entrypoint, ref, hash);
    LabelSafeIs(50, front + [hash]);
    var dashes := HashSurvives(hash);
    var pre, post := EscapeIs(hash);
    LastPartSurvives(50, front, hash);
  }

  lemma {:induction false} WfPartsFit(repo: string, entrypoint: string, ref: string, hash: string)
    requires |hash| == 9
    ensures |Joined(WfParts(repo, entrypoint, ref, hash))| <= 50
  {
    var parts := WfParts(repo, entrypoint, ref, hash);
    JoinedLength(parts);
    TotalOf(parts);
  }

  lemma TotalOf(parts: seq<string>)
    requires 3 <= |parts| <= 4
    ensures TotalLength(parts) == |parts[0]| + |parts[1]| + |parts[2]| + (if |parts| == 4 then |parts[3]| else 0)
  {
    var p1, p2 := parts[1..], parts[2..];
    assert p1[1..] == p2 && p2[1..] == parts[3..];
    if |parts| == 4 {
      assert parts[3..] == [parts[3]];
      assert TotalLength(parts[3..]) == |parts[3]|;
    } else {
      assert parts[3..] == [];
    }
    assert TotalLength(p2) == |p2[0]| + TotalLength(p2[1..]);
  }

  /* ---------- the default volume name ---------- */

  function VolumeName(scope: string, org: string, repo: string, hash: string): string {
    Escape(LabelSafe(50, ["ci", scope, org, repo, hash]))
  }

  /** Dots are what a volume name may not have. */
  function DotsToDashes(s: string): (t: string)
    ensures |t| == |s| && forall i :: 0 <= i < |s| ==> t[i] == if s[i] == '.' then '-' else s[i]
  {
    seq(|s|, i requires 0 <= i < |s| => if s[i] == '.' then '-' else s[i])
  }

  lemma {:induction false} SanitizeDotted(s: string)
    requires forall i :: 0 <= i < |s| ==> Ldh(s[i]) || s[i] == '.'
    ensures Sanitize(s) == DotsToDashes(s)
    decreases |s|
  {
    if s != "" {
      assert Ldh(s[0]) || s[0] == '.';
      var rest := s[1..];
      forall i | 0 <= i < |rest| ensures Ldh(rest[i]) || rest[i] == '.' { assert rest[i] == s[i + 1]; }
      SanitizeDotted(rest);
      SanitizeAscii(s);
      assert DotsToDashes(s) == [if s[0] == '.' then '-' else s[0]] + DotsToDashes(rest);
    }
  }

  lemma SanitizeAscii(s: string)
    requires s != "" && s[0] as int < 0x80
    ensures Sanitize(s) == [SanitizeRune(s[0] as int)] + Sanitize(s[1..])
  {
  }

  /** One label of at most 50 characters: the dotted name with its dots turned into dashes, hash and all. */
  lemma {:induction false} VolumeNameIs(scope: string, org: string, repo: string, hash: string)
    requires HashShape(hash)
    ensures var v := VolumeName(scope, org, repo, hash);
      && Label(v) && |v| <= 50
      && v == DotsToDashes(LabelSafe(50, ["ci", scope, org, repo, hash]))
      && Suffix(Escape(hash), v)
  {
    assert ["ci", scope, org, repo, hash] == ["ci", scope, org, repo] + [hash];
    EscapedName(["ci", scope, org, repo], hash);
  }

  /** If there is room, the name is made of what is left of its parts, in order. */
  lemma {:induction false} ShortVolumeName(scope: string, org: string, repo: string, hash: string)
    requires HashShape(hash) && |scope| + |org| + |repo| <= 35
    ensures var dotted := LabelSafe(50, ["ci", scope, org, repo, hash]);
      && VolumeName(scope, org, repo, hash) == DotsToDashes(dotted)
      && SplitDots(dotted) == ["ci"] + Kept(scope) + Kept(org) + Kept(repo) + [Escape(hash)]
  {
    var dashes := HashSurvives(hash);
    VolumeNameIs(scope, org, repo, hash);
    EscapeKeepsLabels("ci");
    ShortDotted(["ci", scope, org, repo, hash]);
  }

  lemma ShortDotted(strs: seq<string>)
    requires |strs| == 5 && |strs[0]| + |strs[1]| + |strs[2]| + |strs[3]| + |strs[4]| <= 46 && Escape(strs[4]) != ""
    ensures SplitDots(LabelSafe(50, strs)) == Kept(strs[0]) + Kept(strs[1]) + Kept(strs[2]) + Kept(strs[3]) + Kept(strs[4])
  {
    JoinedLength(strs);
    TotalOf(strs[1..]);
    LabelSafeIs(50, strs);
    SplitFive(strs);
  }

  lemma RegroupFive<T>(a: seq<T>, b: seq<T>, c: seq<T>, d: seq<T>, e: seq<T>)
    ensures a + (b + c + d + e) == a + b + c + d + e
  {
  }

  lemma {:induction false} EscapedName(front: seq<string>, hash: string)
    requires HashShape(hash)
    ensures var s := LabelSafe(50, front + [hash]);
      && Label(Escape(s)) && |Escape(s)| <= 50
      && Escape(s) == DotsToDashes(s)
      && Suffix(Escape(hash), Escape(s))
  {
    HashFits(hash);
    LabelSafeShape(50, front + [hash]);
    LastPartSurvives(50, front, hash);
    EscapedDotted(LabelSafe(50, front + [hash]), Escape(hash));
  }

  lemma HashFits(hash: string)
    requires HashShape(hash)
    ensures Label(Escape(hash)) && |Escape(hash)| <= 9
  {
    var dashes := HashSurvives(hash);
    var pre, post := EscapeIs(hash);
  }

  lemma LabelSafeShape(maxLen: nat, strs: seq<string>)
    ensures |LabelSafe(maxLen, strs)| <= maxLen
    ensures LabelSafe(maxLen, strs) == "" || Dotted(LabelSafe(maxLen, strs))
  {
    LabelSafeIs(maxLen, strs);
  }

  lemma EscapedDotted(s: string, h: string)
    requires Dotted(s) && LastPart(h, s) && Label(h)
    ensures Label(Escape(s)) && |Escape(s)| == |s|
    ensures Escape(s) == DotsToDashes(s) && Suffix(h, Escape(s))
  {
    DottedToLabel(s);
    DashedSuffix(s, h);
  }

  /** A dotted name escapes to itself with the dots turned into dashes. */
  lemma {:induction false} DottedToLabel(s: string)
    requires Dotted(s)
    ensures Label(DotsToDashes(s)) && Escape(s) == DotsToDashes(s)
  {
    forall i | 0 <= i < |s| ensures Ldh(s[i]) || s[i] == '.' { assert CharOk(s, i); }
    SanitizeDotted(s);
    EscapeKeepsLabels(DotsToDashes(s));
    SanitizeKeeps(DotsToDashes(s));
  }

  lemma DashedSuffix(s: string, h: string)
    requires Suffix(h, s) && Label(h)
    ensures Suffix(h, DotsToDashes(s))
  {
    var t := DotsToDashes(s);
    forall i | 0 <= i < |h| ensures t[|t| - |h| + i] == h[i] {
      assert s[|s| - |h|..][i] == h[i];
    }
    assert t[|t| - |h|..] == h;
  }
}
