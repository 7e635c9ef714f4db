/**
 The workshop switch: of a pair of adjacent calls it comments one out and uncomments the other, and back.
 */
module CommentToggle {
  import opened Results
  import opened Text

  /** Which call of the pair is to be active. */
  datatype Mode = Safe | Vulnerable

  /** A lab's name and the comment marker of its file: `//` in HTML, `#` elsewhere. */
  datatype Lab = Lab(name: string, mark: string)

  predicate ValidMark(mark: string) { mark == "#" || mark == "//" }

  // ---------------------------------------------------------------- one line

  predicate StartsWith(s: string, p: string) { p <= s }

  /** The indentation of a line, and what follows it. */
  function Lead(line: string): string { line[..Indent(line)] }

  function Body(line: string): string { line[Indent(line)..] }

  /** `line.lstrip().startswith(mark)` */
  predicate Commented(line: string, mark: string) {
    StartsWith(Body(line), mark)
  }

  function Comment(line: string, mark: string): string {
    Lead(line) + (mark + " " + Body(line))
  }

  function Uncomment(line: string, mark: string): Option<string> {
    if StartsWith(Body(line), mark + " ") then Some(Lead(line) + Rest(line, mark)) else None
  }

  /** What follows the marker of a commented line. */
  function Rest(line: string, mark: string): string
    requires StartsWith(Body(line), mark + " ")
  {
    Body(line)[|mark| + 1..]
  }

  // ---------------------------------------------------------------- the pair

  predicate Named(line: string, lab: string, i: int) {
    var end := i + 14 + |lab|;
    OccursAt(line, "NODEGOAT-LAB: " + lab, i) && (end >= |line| || Blank(line[end]) || line[end] == '\U{2014}')
  }

  /** The lab's marker comment: its name, ended by white space, a dash or the end of the line. */
  predicate Marker(line: string, lab: string) {
    exists i :: 0 <= i <= |line| && Named(line, lab, i)
  }

  /** `NODEGOAT-LAB: <lab>(\s|EM DASH|$)` between `before` and the rest. */
  ghost predicate Tagged(line: string, lab: string, before: string, rest: string) {
    && line == before + ("NODEGOAT-LAB: " + lab) + rest
    && (rest == "" || Blank(rest[0]) || rest[0] == '\U{2014}')
  }

  lemma NamedIsTagged(line: string, lab: string, i: int)
    requires Named(line, lab, i)
    ensures Tagged(line, lab, line[..i], line[i + 14 + |lab|..])
  {
    var tag := "NODEGOAT-LAB: " + lab;
    assert |tag| == 14 + |lab|;
    assert line == line[..i] + line[i..i + |tag|] + line[i + |tag|..];
    hide Blank;
  }

  lemma TaggedIsNamed(line: string, lab: string, before: string, rest: string)
    requires Tagged(line, lab, before, rest)
    ensures Named(line, lab, |before|)
  {
    var tag := "NODEGOAT-LAB: " + lab;
    assert |tag| == 14 + |lab|;
    assert line[|before|..|before| + |tag|] == tag;
    hide Blank;
  }

  /** A marker is the pattern found anywhere in the line. */
  lemma MarkerIff(line: string, lab: string)
    ensures Marker(line, lab) <==> exists before, rest :: Tagged(line, lab, before, rest)
  {
    if i :| 0 <= i <= |line| && Named(line, lab, i) { NamedIsTagged(line, lab, i); }
    if before, rest :| Tagged(line, lab, before, rest) { TaggedIsNamed(line, lab, before, rest); }
    hide Named, Tagged;
  }

  function FindMarker(lines: seq<string>, lab: string, from: nat): (r: Option<nat>)
    requires from <= |lines|
    ensures r.Some? ==> from <= r.value < |lines|
    decreases |lines| - from
  {
    if from == |lines| then None
    else if Marker(lines[from], lab) then Some(from)
    else FindMarker(lines, lab, from + 1)
  }

  /** The first of `tries` lines from `from` that holds `tag`; `None` also where the search runs off the end. */
  function FindTag(lines: seq<string>, tag: string, from: nat, tries: nat): (r: Option<nat>)
    ensures r.Some? ==> from <= r.value < from + tries && r.value < |lines| && Contains(lines[r.value], tag)
    decreases tries
  {
    if tries == 0 || from >= |lines| then None
    else if Contains(lines[from], tag) then Some(from)
    else FindTag(lines, tag, from + 1, tries - 1)
  }

  const VULNERABLE_TAG := "VULNERABLE-ACTIVE"
  const SAFE_TAG := "SAFE-ENABLE"

  /** The indices of the vulnerable and of the safe call. */
  function Locate(lines: seq<string>, lab: string): (r: Option<(nat, nat)>)
    ensures r.Some? ==> r.value.0 < |lines| && r.value.1 < |lines|
  {
    var marker := FindMarker(lines, lab, 0);
    if marker.None? then None
    else
      var vulnerable := FindTag(lines, VULNERABLE_TAG, marker.value + 1, 4);
      var safe := FindTag(lines, SAFE_TAG, marker.value + 1, 4);
      if vulnerable.None? || safe.None? then None else Some((vulnerable.value, safe.value))
  }

  /** Comment line `a` out and uncomment line `b`. */
  function Flipped(lines: seq<string>, a: nat, b: nat, mark: string): Option<seq<string>>
    requires a < |lines| && b < |lines|
  {
    var active := Uncomment(lines[b], mark);
    if active.None? then None else Some(lines[a := Comment(lines[a], mark)][b := active.value])
  }

  /** `toggle` on the lines of the file; `None` where it raises. */
  function Toggled(lines: seq<string>, lab: Lab, mode: Mode): Option<seq<string>> {
    var pair := Locate(lines, lab.name);
    if pair.None? then None
    else
      var (v, s) := pair.value;
      var vulnerableOff, safeOff := Commented(lines[v], lab.mark), Commented(lines[s], lab.mark);
      if mode == Safe && !vulnerableOff && safeOff then Flipped(lines, v, s, lab.mark)
      else if mode == Vulnerable && vulnerableOff && !safeOff then Flipped(lines, s, v, lab.mark)
      else if (mode == Safe && vulnerableOff && !safeOff) || (mode == Vulnerable && !vulnerableOff && safeOff)
      then Some(lines)
      else None
  }

  /** `toggle` on the text of the file. */
  function ToggledText(text: string, lab: Lab, mode: Mode): Option<string> {
    var lines := Toggled(SplitLines(text), lab, mode);
    if lines.None? then None else Some(Join(lines.value) + ['\n'])
  }

  /** `toggle` in place; when it raises nothing is written, whatever has become of the list. */
  method Toggle(lines: array<string>, lab: Lab, mode: Mode) returns (ok: bool)
    modifies lines
    ensures ok <==> Toggled(old(lines[..]), lab, mode).Some?
    ensures ok ==> lines[..] == Toggled(old(lines[..]), lab, mode).value
  {
    ghost var before := lines[..];
    var pair := Locate(lines[..], lab.name);
    if pair.None? { return false; }
    var (v, s) := pair.value;
    var vulnerableOff, safeOff := Commented(lines[v], lab.mark), Commented(lines[s], lab.mark);
    hide Locate, Commented, Comment, Uncomment;
    if mode == Safe && !vulnerableOff && safeOff {
      lines[v] := Comment(lines[v], lab.mark);
      var active := Uncomment(lines[s], lab.mark);
      if active.None? { return false; }
      lines[s] := active.value;
    } else if mode == Vulnerable && vulnerableOff && !safeOff {
      var active := Uncomment(lines[v], lab.mark);
      if active.None? { return false; }
      lines[v] := active.value;
      lines[s] := Comment(lines[s], lab.mark);
    } else if !((mode == Safe && vulnerableOff && !safeOff) || (mode == Vulnerable && !vulnerableOff && safeOff)) {
      return false;
    }
    ok := true;
    assert lines[..] == Toggled(before, lab, mode).value;
  }

  // ---------------------------------------------------------------- one line, there and back

  predicate Blanks(s: string) { forall c :: c in s ==> Blank(c) }

  /** The text is empty or starts with something other than a blank. */
  predicate Leads(s: string) { s == "" || !Blank(s[0]) }

  lemma Decompose(line: string)
    ensures line == Lead(line) + Body(line) && Blanks(Lead(line)) && Leads(Body(line))
  {
  }

  /** Indentation and body are read off any such composition. */
  lemma Recompose(lead: string, body: string)
    requires Blanks(lead) && Leads(body)
    ensures Lead(lead + body) == lead && Body(lead + body) == body
  {
    var line := lead + body;
    forall i | 0 <= i < |lead| ensures Blank(line[i]) { assert line[i] == lead[i] && lead[i] in lead; }
    assert |lead| < |line| ==> line[|lead|] == body[0];
    IndentUnique(line, |lead|);
  }

  lemma MarkLeads(mark: string, body: string)
    requires ValidMark(mark)
    ensures Leads(mark + " " + body) && StartsWith(mark + " " + body, mark) && StartsWith(mark + " " + body, mark + " ")
    ensures (mark + " " + body)[|mark| + 1..] == body
  {
  }

  /** Commenting puts the marker right after the indentation, which stays. */
  lemma CommentShape(line: string, mark: string)
    requires ValidMark(mark)
    ensures Lead(Comment(line, mark)) == Lead(line) && Body(Comment(line, mark)) == mark + " " + Body(line)
  {
    Decompose(line);
    MarkLeads(mark, Body(line));
    hide Lead, Body, Blanks, Leads;
    Recompose(Lead(line), mark + " " + Body(line));
  }

  /** A comment marker put in can always be taken out again. */
  lemma UncommentComment(line: string, mark: string)
    requires ValidMark(mark)
    ensures Commented(Comment(line, mark), mark) && Uncomment(Comment(line, mark), mark) == Some(line)
  {
    Decompose(line);
    CommentShape(line, mark);
    MarkLeads(mark, Body(line));
    hide Lead, Body, Comment;
  }

  /** Commenting again restores an uncommented line exactly when its text did not start with a blank. */
  lemma CommentUncomment(line: string, mark: string)
    requires ValidMark(mark) && Uncomment(line, mark).Some?
    ensures var active, rest := Uncomment(line, mark).value, Rest(line, mark);
            && (Comment(active, mark) == line <==> Leads(rest))
            && (Leads(rest) ==> (Commented(active, mark) <==> StartsWith(rest, mark)))
  {
    var active, rest := Uncomment(line, mark).value, Rest(line, mark);
    Decompose(line);
    assert Body(line) == mark + " " + rest;
    Decompose(active);
    MarkLeads(mark, Body(active));
    CommentShape(active, mark);
    hide Lead, Body, Blanks, Leads;
    if Leads(rest) { Recompose(Lead(line), rest); }
  }

  // ---------------------------------------------------------------- the pair is found again

  /** Text in front that shares no character with `p` neither holds nor hides it. */
  lemma PrefixAbsent(a: string, b: string, p: string)
    requires p != "" && forall c :: c in a ==> c !in p
    ensures Contains(a + b, p) <==> Contains(b, p)
  {
    assert p[0] in p && forall k :: 0 <= k < |a| ==> a[k] !in p;
    forall i | 0 <= i <= |a + b| && OccursAt(a + b, p, i) ensures Contains(b, p) {
      assert (a + b)[i..i + |p|][0] == (a + b)[i] == p[0];
      assert |a| <= i;
      assert (a + b)[i..i + |p|] == b[i - |a|..i - |a| + |p|];
      assert OccursAt(b, p, i - |a|);
    }
    forall i | 0 <= i <= |b| && OccursAt(b, p, i) ensures Contains(a + b, p) {
      assert (a + b)[i + |a|..i + |a| + |p|] == b[i..i + |p|];
      assert OccursAt(a + b, p, i + |a|);
    }
  }

  predicate Tag(p: string) { p == VULNERABLE_TAG || p == SAFE_TAG }

  lemma TagCharacters(p: string)
    requires Tag(p)
    ensures p != "" && forall c :: c in p ==> !Blank(c) && c != '#' && c != '/'
  {
    assert forall i :: 0 <= i < |p| ==> !Blank(p[i]) && p[i] != '#' && p[i] != '/';
  }

  /** A tag lies wholly in the body: neither the indentation nor the marker makes or breaks one. */
  lemma TagsLieInBody(lead: string, mark: string, body: string, p: string)
    requires ValidMark(mark) && Tag(p) && Blanks(lead)
    ensures Contains(lead + body, p) <==> Contains(body, p)
    ensures Contains(lead + (mark + " " + body), p) <==> Contains(body, p)
  {
    TagCharacters(p);
    assert forall c :: c in mark + " " ==> c !in p;
    hide Blank, Contains, Tag;
    PrefixAbsent(lead, body, p);
    PrefixAbsent(lead, mark + " " + body, p);
    PrefixAbsent(mark + " ", body, p);
  }

  /** Neither commenting nor uncommenting changes which tags a line holds. */
  lemma CommentKeepsTags(line: string, mark: string, p: string)
    requires ValidMark(mark) && Tag(p)
    ensures Contains(Comment(line, mark), p) <==> Contains(line, p)
  {
    Decompose(line);
    hide Contains, Tag, Lead, Body, Blanks;
    TagsLieInBody(Lead(line), mark, Body(line), p);
  }

  lemma UncommentKeepsTags(line: string, mark: string, p: string)
    requires ValidMark(mark) && Tag(p) && Uncomment(line, mark).Some?
    ensures Contains(Uncomment(line, mark).value, p) <==> Contains(line, p)
  {
    Decompose(line);
    assert Body(line) == mark + " " + Rest(line, mark);
    hide Contains, Tag, Lead, Body, Blanks, Rest;
    TagsLieInBody(Lead(line), mark, Rest(line, mark), p);
  }

  lemma {:induction false} SameMarker(lines: seq<string>, after: seq<string>, lab: string, from: nat)
    requires from <= |lines| == |after|
    requires FindMarker(lines, lab, from).Some?
    requires forall i :: from <= i <= FindMarker(lines, lab, from).value ==> after[i] == lines[i]
    ensures FindMarker(after, lab, from) == FindMarker(lines, lab, from)
    decreases |lines| - from
  {
    hide Marker;
    if !Marker(lines[from], lab) { SameMarker(lines, after, lab, from + 1); }
  }

  lemma {:induction false} SameTag(lines: seq<string>, after: seq<string>, tag: string, from: nat, tries: nat)
    requires |lines| == |after| && forall i :: 0 <= i < |lines| ==> (Contains(after[i], tag) <==> Contains(lines[i], tag))
    ensures FindTag(after, tag, from, tries) == FindTag(lines, tag, from, tries)
    decreases tries
  {
    hide Contains;
    if tries > 0 && from < |lines| { SameTag(lines, after, tag, from + 1, tries - 1); }
  }

  lemma FlipKeepsTag(lines: seq<string>, mark: string, a: nat, b: nat, p: string)
    requires ValidMark(mark) && Tag(p) && a < |lines| && b < |lines| && a != b
    requires Flipped(lines, a, b, mark).Some?
    ensures var after := Flipped(lines, a, b, mark).value;
            |after| == |lines| && forall i :: 0 <= i < |lines| ==> (Contains(after[i], p) <==> Contains(lines[i], p))
  {
    hide Contains, Comment, Uncomment, Tag, ValidMark;
    CommentKeepsTags(lines[a], mark, p);
    UncommentKeepsTags(lines[b], mark, p);
  }

  /** Flipping the pair does not move it. */
  lemma FlipKeepsPlace(lines: seq<string>, lab: Lab, a: nat, b: nat)
    requires ValidMark(lab.mark) && Locate(lines, lab.name).Some? && a != b
    requires Locate(lines, lab.name).value == (a, b) || Locate(lines, lab.name).value == (b, a)
    requires Flipped(lines, a, b, lab.mark).Some?
    ensures Locate(Flipped(lines, a, b, lab.mark).value, lab.name) == Locate(lines, lab.name)
  {
    var after := Flipped(lines, a, b, lab.mark).value;
    hide Contains, Comment, Uncomment, Marker;
    FlipKeepsTag(lines, lab.mark, a, b, VULNERABLE_TAG);
    FlipKeepsTag(lines, lab.mark, a, b, SAFE_TAG);
    var marker := FindMarker(lines, lab.name, 0).value;
    assert marker < a && marker < b;
    SameMarker(lines, after, lab.name, 0);
    SameTag(lines, after, VULNERABLE_TAG, marker + 1, 4);
    SameTag(lines, after, SAFE_TAG, marker + 1, 4);
  }

  // ---------------------------------------------------------------- main results

  function Other(mode: Mode): Mode { if mode == Safe then Vulnerable else Safe }

  /** The line `toggle` comments out for a mode, and the line it uncomments. */
  function Roles(pair: (nat, nat), mode: Mode): (nat, nat) {
    if mode == Safe then pair else (pair.1, pair.0)
  }

  /** The pair stands the other way round, and `toggle` can turn it. */
  predicate Turnable(lines: seq<string>, lab: Lab, mode: Mode) {
    && ValidMark(lab.mark) && Locate(lines, lab.name).Some?
    && var (a, b) := Roles(Locate(lines, lab.name).value, mode);
       !Commented(lines[a], lab.mark) && Commented(lines[b], lab.mark) && Uncomment(lines[b], lab.mark).Some?
  }

  /** The text behind the marker begins with neither a blank nor another marker. */
  predicate Clean(rest: string, mark: string) {
    Leads(rest) && !StartsWith(rest, mark)
  }

  /** What one turn does: exactly the two calls change, and each as it should. */
  lemma TurnChangesThePair(lines: seq<string>, lab: Lab, mode: Mode)
    requires Turnable(lines, lab, mode)
    ensures var (a, b) := Roles(Locate(lines, lab.name).value, mode);
            var after := Toggled(lines, lab, mode);
            && after.Some? && |after.value| == |lines|
            && a != b && after.value[a] == Comment(lines[a], lab.mark)
            && Some(after.value[b]) == Uncomment(lines[b], lab.mark)
            && (forall i :: 0 <= i < |lines| && i != a && i != b ==> after.value[i] == lines[i])
            && Locate(after.value, lab.name) == Locate(lines, lab.name)
  {
    hide Contains, Comment, Uncomment, Marker, Commented, Locate;
    var (a, b) := Roles(Locate(lines, lab.name).value, mode);
    FlipKeepsPlace(lines, lab, a, b);
  }

  /** What turning back does: the first line is restored, the second is commented again. */
  lemma TurningBack(lines: seq<string>, lab: Lab, mode: Mode)
    requires Turnable(lines, lab, mode)
    ensures Toggled(lines, lab, mode).Some? && |Toggled(lines, lab, mode).value| == |lines|
    ensures var (a, b) := Roles(Locate(lines, lab.name).value, mode);
            var after := Toggled(lines, lab, mode).value;
            Toggled(after, lab, Other(mode))
            == if Commented(after[b], lab.mark) then None
               else Some(after[b := Comment(after[b], lab.mark)][a := lines[a]])
  {
    TurnChangesThePair(lines, lab, mode);
    var (a, b) := Roles(Locate(lines, lab.name).value, mode);
    UncommentComment(lines[a], lab.mark);
    hide Contains, Comment, Uncomment, Commented, Locate;
  }

  /** Round trip: turning the pair and turning it back restores every line exactly if and only if the text behind the
      marker of the call that was uncommented begins with neither a blank nor another marker. */
  lemma RoundTrip(lines: seq<string>, lab: Lab, mode: Mode)
    requires Turnable(lines, lab, mode)
    ensures var (_, b) := Roles(Locate(lines, lab.name).value, mode);
            Toggled(Toggled(lines, lab, mode).value, lab, Other(mode)) == Some(lines)
            <==> Clean(Rest(lines[b], lab.mark), lab.mark)
  {
    hide Contains, Toggled, Comment, Uncomment, Commented, Locate, Rest, Leads, StartsWith;
    TurnChangesThePair(lines, lab, mode);
    TurningBack(lines, lab, mode);
    var (a, b) := Roles(Locate(lines, lab.name).value, mode);
    var after := Toggled(lines, lab, mode).value;
    CommentUncomment(lines[b], lab.mark);
    var back := after[b := Comment(after[b], lab.mark)][a := lines[a]];
    assert back == lines <==> Comment(after[b], lab.mark) == lines[b];
  }

  /** Idempotence: asking for the same mode again changes nothing exactly when uncommenting really made the call
      active, that is, when no second marker stood behind the first. */
  lemma Idempotent(lines: seq<string>, lab: Lab, mode: Mode)
    requires Turnable(lines, lab, mode)
    ensures var (_, b) := Roles(Locate(lines, lab.name).value, mode);
            var after := Toggled(lines, lab, mode).value;
            Toggled(after, lab, mode) == Some(after)
            <==> !Commented(Uncomment(lines[b], lab.mark).value, lab.mark)
  {
    TurnChangesThePair(lines, lab, mode);
    var (a, b) := Roles(Locate(lines, lab.name).value, mode);
    UncommentComment(lines[a], lab.mark);
    hide Contains, Comment, Uncomment, Commented, Locate;
  }

  /** The same for the file: a turn and its return give the very text back if and only if the text behind the marker is
      clean and every line of the file, the last one too, ends with a plain newline. */
  lemma FileRoundTrip(text: string, lab: Lab, mode: Mode)
    requires Turnable(SplitLines(text), lab, mode)
    ensures ToggledText(text, lab, mode).Some?
    ensures var (_, b) := Roles(Locate(SplitLines(text), lab.name).value, mode);
            ToggledText(ToggledText(text, lab, mode).value, lab, Other(mode)) == Some(text)
            <==> Clean(Rest(SplitLines(text)[b], lab.mark), lab.mark) && PlainLines(text)
  {
    var lines := SplitLines(text);
    RoundTrip(lines, lab, mode);
    TurnChangesThePair(lines, lab, mode);
    var after := Toggled(lines, lab, mode).value;
    SplitUnbroken(text, []);
    TurnIsUnbroken(lines, lab, mode);
    ReturnIsUnbroken(lines, lab, mode);
    RestoredIffPlain(text);
    var back := Toggled(after, lab, Other(mode));
    hide Toggled, Turnable, Locate, Rest, Clean, PlainLines;
    JoinThenNewline(after);
    SplitWithNewlines(after);
    if back.Some? {
      JoinThenNewline(back.value);
      SplitWithNewlines(back.value);
    }
  }

  lemma ReturnIsUnbroken(lines: seq<string>, lab: Lab, mode: Mode)
    requires Turnable(lines, lab, mode) && forall l :: l in lines ==> Unbroken(l)
    ensures Toggled(lines, lab, mode).Some?
    ensures var back := Toggled(Toggled(lines, lab, mode).value, lab, Other(mode));
            back.Some? ==> back.value != [] && forall l :: l in back.value ==> Unbroken(l)
  {
    hide Toggled, Locate, Commented, Comment, Uncomment, Unbroken, ValidMark;
    TurningBack(lines, lab, mode);
    TurnIsUnbroken(lines, lab, mode);
    var (a, b) := Roles(Locate(lines, lab.name).value, mode);
    var after := Toggled(lines, lab, mode).value;
    assert lines[a] in lines && after[b] in after;
    CommentIsUnbroken(after[b], lab.mark);
  }

  lemma CommentIsUnbroken(line: string, mark: string)
    requires ValidMark(mark) && Unbroken(line)
    ensures Unbroken(Comment(line, mark))
  {
  }

  lemma TurnIsUnbroken(lines: seq<string>, lab: Lab, mode: Mode)
    requires Turnable(lines, lab, mode) && forall l :: l in lines ==> Unbroken(l)
    ensures Toggled(lines, lab, mode).Some? && forall l :: l in Toggled(lines, lab, mode).value ==> Unbroken(l)
  {
    hide Toggled, Locate, Commented, Comment, Uncomment, Unbroken, ValidMark;
    TurnChangesThePair(lines, lab, mode);
    var (a, b) := Roles(Locate(lines, lab.name).value, mode);
    assert lines[a] in lines && lines[b] in lines;
    CommentIsUnbroken(lines[a], lab.mark);
    UncommentIsUnbroken(lines[b], lab.mark);
  }

  lemma UncommentIsUnbroken(line: string, mark: string)
    requires Unbroken(line) && Uncomment(line, mark).Some?
    ensures Unbroken(Uncomment(line, mark).value)
  {
  }

  // ---------------------------------------------------------------- where the pair is

  /** Line `at` is the first with the tag among the four lines from `from`. */
  ghost predicate FirstTag(lines: seq<string>, tag: string, from: nat, at: nat) {
    && from <= at < from + 4 && at < |lines| && Contains(lines[at], tag)
    && forall i :: from <= i < at ==> !Contains(lines[i], tag)
  }

  ghost predicate FirstMarker(lines: seq<string>, lab: string, at: nat) {
    at < |lines| && Marker(lines[at], lab) && forall i :: 0 <= i < at ==> !Marker(lines[i], lab)
  }

  lemma {:induction false} FindTagIs(lines: seq<string>, tag: string, from: nat, tries: nat, at: nat)
    ensures FindTag(lines, tag, from, tries) == Some(at)
       <==> && from <= at < from + tries && at < |lines| && Contains(lines[at], tag)
            && forall i :: from <= i < at ==> !Contains(lines[i], tag)
    decreases tries
  {
    hide Contains;
    if tries > 0 && from < |lines| && !Contains(lines[from], tag) { FindTagIs(lines, tag, from + 1, tries - 1, at); }
  }

  lemma {:induction false} FindMarkerIs(lines: seq<string>, lab: string, from: nat, at: nat)
    requires from <= |lines|
    ensures FindMarker(lines, lab, from) == Some(at)
       <==> from <= at < |lines| && Marker(lines[at], lab) && forall i :: from <= i < at ==> !Marker(lines[i], lab)
    decreases |lines| - from
  {
    hide Marker;
    if from < |lines| && !Marker(lines[from], lab) { FindMarkerIs(lines, lab, from + 1, at); }
  }

  /** The pair is found behind the first marker line of the lab: the first vulnerable and the first safe call among the
      four lines after it. */
  lemma LocateIs(lines: seq<string>, lab: string, v: nat, s: nat)
    ensures Locate(lines, lab) == Some((v, s))
       <==> exists m: nat :: && FirstMarker(lines, lab, m) && FirstTag(lines, "VULNERABLE-ACTIVE", m + 1, v)
                             && FirstTag(lines, "SAFE-ENABLE", m + 1, s)
  {
    hide Contains, Marker, FindMarker, FindTag;
    var marker := FindMarker(lines, lab, 0);
    forall m: nat ensures marker == Some(m) <==> FirstMarker(lines, lab, m) { FindMarkerIs(lines, lab, 0, m); }
    if marker.Some? {
      FindTagIs(lines, VULNERABLE_TAG, marker.value + 1, 4, v);
      FindTagIs(lines, SAFE_TAG, marker.value + 1, 4, s);
      assert FirstMarker(lines, lab, marker.value);
    }
  }
}
