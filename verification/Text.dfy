/** Python's string operations, as far as the modelled files use them. */
module Text {

  predicate Digit(c: char) { '0' <= c <= '9' }

  predicate Lower(c: char) { 'a' <= c <= 'z' }

  predicate Upper(c: char) { 'A' <= c <= 'Z' }

  predicate LowerHex(c: char) { Digit(c) || 'a' <= c <= 'f' }

  /** `str.isspace` on one character; the set `str.lstrip` removes. */
  predicate Blank(c: char) {
    || '\U{9}' <= c <= '\U{d}' || '\U{1c}' <= c <= '\U{20}'
    || c == '\U{85}' || c == '\U{a0}' || c == '\U{1680}'
    || '\U{2000}' <= c <= '\U{200a}' || c == '\U{2028}' || c == '\U{2029}'
    || c == '\U{202f}' || c == '\U{205f}' || c == '\U{3000}'
  }

  /** The characters at which `str.splitlines` ends a line. */
  predicate Boundary(c: char) {
    || '\U{a}' <= c <= '\U{d}' || '\U{1c}' <= c <= '\U{1e}'
    || c == '\U{85}' || c == '\U{2028}' || c == '\U{2029}'
  }

  predicate Unbroken(line: string) {
    forall c :: c in line ==> !Boundary(c)
  }

  predicate OccursAt(s: string, p: string, i: int) {
    0 <= i <= |s| - |p| && s[i..i + |p|] == p
  }

  /** `p in s` for strings. */
  predicate Contains(s: string, p: string) {
    exists i :: 0 <= i <= |s| && OccursAt(s, p, i)
  }

  /** The length of the indentation that `str.lstrip` removes. */
  function Indent(s: string): (n: nat)
    ensures n <= |s|
    ensures forall i :: 0 <= i < n ==> Blank(s[i])
    ensures n < |s| ==> !Blank(s[n])
  {
    if s == [] || !Blank(s[0]) then 0 else 1 + Indent(s[1..])
  }

  /** The indentation is the only split of a line into blanks and a rest that starts with a non-blank. */
  lemma IndentUnique(s: string, n: nat)
    requires n <= |s|
    requires forall i :: 0 <= i < n ==> Blank(s[i])
    requires n < |s| ==> !Blank(s[n])
    ensures Indent(s) == n
  {
    var m := Indent(s);
    assert m < |s| ==> !Blank(s[m]);
    assert n < |s| ==> !Blank(s[n]);
  }

  /** `str.splitlines`: the line under construction is carried in `line`. */
  function SplitFrom(text: string, line: string): (lines: seq<string>)
    decreases |text|
  {
    if text == [] then
      if line == [] then [] else [line]
    else if text[0] == '\r' && 1 < |text| && text[1] == '\n' then
      [line] + SplitFrom(text[2..], [])
    else if Boundary(text[0]) then
      [line] + SplitFrom(text[1..], [])
    else
      SplitFrom(text[1..], line + [text[0]])
  }

  function SplitLines(text: string): (lines: seq<string>) {
    SplitFrom(text, [])
  }

  /** Every line written with a final newline; for a nonempty list this is `"\n".join(lines) + "\n"`. */
  function WithNewlines(lines: seq<string>): (text: string) {
    if lines == [] then [] else lines[0] + ['\n'] + WithNewlines(lines[1..])
  }

  /** `"\n".join(lines)`. */
  function Join(lines: seq<string>): (text: string) {
    if lines == [] then []
    else if |lines| == 1 then lines[0]
    else lines[0] + ['\n'] + Join(lines[1..])
  }

  lemma {:induction false} JoinThenNewline(lines: seq<string>)
    requires lines != []
    ensures Join(lines) + ['\n'] == WithNewlines(lines)
  {
    if |lines| == 1 {
      assert lines[1..] == [];
      assert WithNewlines(lines) == lines[0] + ['\n'] + [];
    } else {
      JoinThenNewline(lines[1..]);
      assert Join(lines) + ['\n'] == lines[0] + ['\n'] + (Join(lines[1..]) + ['\n']);
    }
  }

  /** Reading past a run of ordinary characters moves them to the line under construction. */
  lemma {:induction false} SplitSkips(run: string, rest: string, line: string)
    requires Unbroken(run)
    ensures SplitFrom(run + rest, line) == SplitFrom(rest, line + run)
    decreases |run|
  {
    if run == [] {
      assert run + rest == rest && line + run == line;
    } else {
      assert !Boundary(run[0]) && run[0] != '\r' by { assert run[0] in run; }
      assert (run + rest)[1..] == run[1..] + rest;
      assert forall c :: c in run[1..] ==> c in run;
      SplitSkips(run[1..], rest, line + [run[0]]);
      assert line + [run[0]] + run[1..] == line + run;
    }
  }

  /** Writing lines that hold no boundary character and splitting the text again gives the same lines. */
  lemma {:induction false} SplitWithNewlines(lines: seq<string>)
    requires forall l :: l in lines ==> Unbroken(l)
    ensures SplitLines(WithNewlines(lines)) == lines
  {
    if lines != [] {
      var l, rest := lines[0], WithNewlines(lines[1..]);
      assert l in lines;
      assert WithNewlines(lines) == l + (['\n'] + rest);
      SplitSkips(l, ['\n'] + rest, []);
      assert [] + l == l;
      assert (['\n'] + rest)[1..] == rest;
      SplitWithNewlines(lines[1..]);
    }
  }

  /** No line that `str.splitlines` returns holds a boundary character. */
  lemma {:induction false} SplitUnbroken(text: string, line: string)
    requires Unbroken(line)
    ensures forall l :: l in SplitFrom(text, line) ==> Unbroken(l)
    decreases |text|
  {
    if text == [] {
    } else if text[0] == '\r' && 1 < |text| && text[1] == '\n' {
      SplitUnbroken(text[2..], []);
    } else if Boundary(text[0]) {
      SplitUnbroken(text[1..], []);
    } else {
      SplitUnbroken(text[1..], line + [text[0]]);
    }
  }

  lemma {:induction false} LineCharacters(lines: seq<string>, c: char)
    ensures c in WithNewlines(lines) ==> c == '\n' || exists l :: l in lines && c in l
    ensures (exists l :: l in lines && c in l) ==> c in WithNewlines(lines)
  {
    if lines != [] {
      LineCharacters(lines[1..], c);
      assert lines == [lines[0]] + lines[1..];
    }
  }

  lemma {:induction false} EndsWithNewline(lines: seq<string>)
    requires lines != []
    ensures WithNewlines(lines) != "" && WithNewlines(lines)[|WithNewlines(lines)| - 1] == '\n'
  {
    if |lines| == 1 {
      assert lines[1..] == [] && lines == [lines[0]];
    } else {
      EndsWithNewline(lines[1..]);
    }
  }

  /** Every line ends with a plain newline, the last one too. */
  predicate PlainLines(text: string) {
    && (forall c :: c in text && Boundary(c) ==> c == '\n')
    && (text != "" ==> text[|text| - 1] == '\n')
  }

  lemma {:induction false} PlainIsRestored(text: string, line: string)
    requires PlainLines(text) && Unbroken(line) && (text == "" ==> line == "")
    ensures WithNewlines(SplitFrom(text, line)) == line + text
    decreases |text|
  {
    if text != "" {
      assert text[0] in text && text == [text[0]] + text[1..];
      assert forall c :: c in text[1..] ==> c in text;
      if Boundary(text[0]) {
        PlainIsRestored(text[1..], []);
        var lines := SplitFrom(text, line);
        assert lines == [line] + SplitFrom(text[1..], []) && lines[1..] == SplitFrom(text[1..], []);
        assert line + text == line + ['\n'] + text[1..];
      } else {
        PlainIsRestored(text[1..], line + [text[0]]);
        assert line + text == (line + [text[0]]) + text[1..];
      }
    }
  }

  /** Splitting a text and writing its lines gives the text back exactly when its lines end plainly. */
  lemma RestoredIffPlain(text: string)
    ensures WithNewlines(SplitLines(text)) == text <==> PlainLines(text)
  {
    var lines := SplitLines(text);
    if PlainLines(text) {
      PlainIsRestored(text, []);
      assert [] + text == text;
    }
    if WithNewlines(lines) == text {
      SplitUnbroken(text, []);
      forall c | c in text && Boundary(c) ensures c == '\n' { LineCharacters(lines, c); }
      if lines != [] { EndsWithNewline(lines); }
    }
  }

  /** `len(s.encode())`: the number of UTF-8 bytes. */
  function Utf8Length(s: string): nat {
    if s == [] then 0
    else (if s[0] < '\U{80}' then 1 else if s[0] < '\U{800}' then 2 else if s[0] < '\U{10000}' then 3 else 4)
         + Utf8Length(s[1..])
  }

  /** The canonical text of a UUID: `str(UUID(s)) == s`. */
  predicate CanonicalUuid(s: string) {
    && |s| == 36
    && s[8] == s[13] == s[18] == s[23] == '-'
    && forall i :: 0 <= i < 36 && i != 8 && i != 13 && i != 18 && i != 23 ==> LowerHex(s[i])
  }

  /** `UUID(s).hex` for a canonical text. */
  function UuidHex(s: string): string {
    if |s| == 36 then s[..8] + s[9..13] + s[14..18] + s[19..23] + s[24..] else s
  }

  /** A UUID can be read back from its 32 hexadecimal digits. */
  lemma UuidHexInjective(a: string, b: string)
    requires CanonicalUuid(a) && CanonicalUuid(b) && UuidHex(a) == UuidHex(b)
    ensures a == b
  {
    var x, y := UuidHex(a), UuidHex(b);
    assert a[..8] == x[..8] == y[..8] == b[..8];
    assert a[9..13] == x[8..12] == y[8..12] == b[9..13];
    assert a[14..18] == x[12..16] == y[12..16] == b[14..18];
    assert a[19..23] == x[16..20] == y[16..20] == b[19..23];
    assert a[24..] == x[20..] == y[20..] == b[24..];
    assert a == a[..8] + ['-'] + a[9..13] + ['-'] + a[14..18] + ['-'] + a[19..23] + ['-'] + a[24..];
    assert b == b[..8] + ['-'] + b[9..13] + ['-'] + b[14..18] + ['-'] + b[19..23] + ['-'] + b[24..];
  }

  // ---------------------------------------------------------------- what splitting means

  /** What may stand behind a line: one boundary character, or a carriage return with its newline. */
  predicate Terminator(end: string) {
    end == ['\r', '\n'] || (|end| == 1 && Boundary(end[0]))
  }

  /** The text of lines with what stands behind each. */
  function Woven(lines: seq<string>, ends: seq<string>): string
    requires |lines| == |ends|
  {
    if lines == [] then "" else lines[0] + ends[0] + Woven(lines[1..], ends[1..])
  }

  /** `ends` are the terminators of the lines: only the last line may have none, if it is not empty, and a carriage
      return stands alone only where no newline follows it. */
  ghost predicate Terminates(lines: seq<string>, ends: seq<string>) {
    && |ends| == |lines|
    && (forall l :: l in lines ==> Unbroken(l))
    && forall i {:trigger ends[i]} :: 0 <= i < |ends| ==>
         && (Terminator(ends[i]) || (i == |ends| - 1 && ends[i] == "" && lines[i] != ""))
         && (ends[i] == ['\r'] ==> !(['\n'] <= Woven(lines[i + 1..], ends[i + 1..])))
  }

  lemma TerminatesMore(line: string, end: string, lines: seq<string>, ends: seq<string>)
    requires Terminates(lines, ends) && Unbroken(line) && Terminator(end)
    requires end == ['\r'] ==> !(['\n'] <= Woven(lines, ends))
    ensures Terminates([line] + lines, [end] + ends)
    ensures Woven([line] + lines, [end] + ends) == line + end + Woven(lines, ends)
  {
    var more, after := [line] + lines, [end] + ends;
    assert more[1..] == lines && after[1..] == ends;
    forall i {:trigger after[i]} | 0 <= i < |after|
      ensures && (Terminator(after[i]) || (i == |after| - 1 && after[i] == "" && more[i] != ""))
              && (after[i] == ['\r'] ==> !(['\n'] <= Woven(more[i + 1..], after[i + 1..])))
    {
      if i > 0 {
        assert after[i] == ends[i - 1] && more[i] == lines[i - 1];
        assert more[i + 1..] == lines[i..] && after[i + 1..] == ends[i..];
      }
    }
  }

  lemma UnbrokenMore(line: string, c: char)
    requires Unbroken(line) && !Boundary(c)
    ensures Unbroken(line + [c])
  {
  }

  lemma LastLine(line: string)
    requires Unbroken(line)
    ensures var (lines, ends) := (if line == [] then [] else [line], if line == [] then [] else [""]);
            Terminates(lines, ends) && Woven(lines, ends) == line
    ensures Unbroken([])
  {
    assert [line][1..] == [] && [""][1..] == [];
    assert Woven([line], [""]) == line + "" + Woven([], []);
  }

  /** `str.splitlines` takes the text apart at its line boundaries and nowhere else: the lines, none of which holds a
      boundary, with the terminators put back behind them are the text, and a carriage return and newline are one
      terminator. */
  lemma {:induction false} SplitIs(text: string, line: string) returns (ends: seq<string>)
    requires Unbroken(line)
    ensures Terminates(SplitFrom(text, line), ends) && Woven(SplitFrom(text, line), ends) == line + text
    decreases |text|
  {
    hide Terminates, Woven, Unbroken, SplitFrom;
    if text == [] {
      ends := if line == [] then [] else [""];
      AtEnd(line);
    } else if text[0] == '\r' && 1 < |text| && text[1] == '\n' {
      LastLine([]);
      ends := SplitIs(text[2..], []);
      AtReturn(text, line, ends);
      ends := [['\r', '\n']] + ends;
    } else if Boundary(text[0]) {
      LastLine([]);
      ends := SplitIs(text[1..], []);
      AtBoundary(text, line, ends);
      ends := [[text[0]]] + ends;
    } else {
      UnbrokenMore(line, text[0]);
      ends := SplitIs(text[1..], line + [text[0]]);
      AtPlain(text, line);
    }
  }

  lemma AtEnd(line: string)
    requires Unbroken(line)
    ensures var ends := if line == [] then [] else [""];
            Terminates(SplitFrom([], line), ends) && Woven(SplitFrom([], line), ends) == line + []
  {
    LastLine(line);
  }

  lemma AtReturn(text: string, line: string, ends: seq<string>)
    requires |text| > 1 && text[0] == '\r' && text[1] == '\n' && Unbroken(line)
    requires Terminates(SplitFrom(text[2..], []), ends) && Woven(SplitFrom(text[2..], []), ends) == [] + text[2..]
    ensures Terminates(SplitFrom(text, line), [['\r', '\n']] + ends)
    ensures Woven(SplitFrom(text, line), [['\r', '\n']] + ends) == line + text
  {
    var rest := SplitFrom(text[2..], []);
    assert |rest| == |ends| && SplitFrom(text, line) == [line] + rest;
    hide Terminates, Woven, Unbroken, SplitFrom;
    TerminatesMore(line, ['\r', '\n'], rest, ends);
    Glue(line, text, 2);
    assert text[..2] == ['\r', '\n'];
  }

  lemma AtBoundary(text: string, line: string, ends: seq<string>)
    requires text != [] && Boundary(text[0]) && Unbroken(line) && !(text[0] == '\r' && 1 < |text| && text[1] == '\n')
    requires Terminates(SplitFrom(text[1..], []), ends) && Woven(SplitFrom(text[1..], []), ends) == [] + text[1..]
    ensures Terminates(SplitFrom(text, line), [[text[0]]] + ends)
    ensures Woven(SplitFrom(text, line), [[text[0]]] + ends) == line + text
  {
    var rest, end := SplitFrom(text[1..], []), [text[0]];
    assert |rest| == |ends| && Terminator(end) && SplitFrom(text, line) == [line] + rest;
    hide Terminates, Woven, Unbroken, SplitFrom, Boundary, Terminator;
    NoNewline(text);
    Glue(line, text, 1);
    TerminatesMore(line, end, rest, ends);
    assert text[..1] == end;
  }

  lemma NoNewline(text: string)
    requires text != [] && !(text[0] == '\r' && 1 < |text| && text[1] == '\n')
    ensures [text[0]] == ['\r'] ==> !(['\n'] <= [] + text[1..])
  {
    assert [text[0]][0] == text[0];
    assert [] + text[1..] == text[1..];
  }

  lemma Glue(line: string, text: string, n: nat)
    requires n <= |text|
    ensures line + text[..n] + ([] + text[n..]) == line + text
  {
    assert text[..n] + text[n..] == text;
  }

  lemma AtPlain(text: string, line: string)
    requires text != [] && !Boundary(text[0])
    ensures SplitFrom(text, line) == SplitFrom(text[1..], line + [text[0]])
    ensures line + [text[0]] + text[1..] == line + text
  {
  }

  // ---------------------------------------------------------------- encoded length

  /** The bytes of one character in UTF-8 (section 3 of RFC 3629). */
  function Utf8(c: char): seq<nat> {
    var n := c as int;
    if n < 0x80 then [n]
    else if n < 0x800 then [0xC0 + n / 0x40, 0x80 + n % 0x40]
    else if n < 0x10000 then [0xE0 + n / 0x1000, 0x80 + n / 0x40 % 0x40, 0x80 + n % 0x40]
    else [0xF0 + n / 0x40000, 0x80 + n / 0x1000 % 0x40, 0x80 + n / 0x40 % 0x40, 0x80 + n % 0x40]
  }

  function Encoded(s: string): seq<nat> {
    if s == [] then [] else Utf8(s[0]) + Encoded(s[1..])
  }

  lemma {:induction false} Utf8LengthIs(s: string)
    ensures Utf8Length(s) == |Encoded(s)|
  {
    if s != [] { Utf8LengthIs(s[1..]); }
  }
}
