/**
 * The `.osu` text parsing of src/resources/beatmap/store.ts: a category's
 * body (`findCategoryValue`), a property's value (`findPropertyValue`), the
 * column of a hit object (`getCol`) and the per-column note lists of the
 * `[HitObjects]` section (`extractHitObjects`), for the osu! file format v14.
 * The regular expressions run in multiline mode, so `^` matches at the start
 * of the text and after every line terminator and `.` matches anything but a
 * line terminator; each is written out below as a scan over the characters.
 * The `assert` these functions use is the one that always throws, so a
 * missing section is a `Failure`.
 */
module BeatmapStore {
  import opened Wrappers
  import opened JsNumbers
  import opened Notes

  // ---------------------------------------------------------------------------
  // Scanning text the way a multiline regular expression does

  /** The characters `.` does not match and after which `^` matches. */
  predicate LineTerminator(c: char) {
    c == '\n' || c == '\r' || c == '\U{2028}' || c == '\U{2029}'
  }

  /** `^` in multiline mode. */
  predicate LineStart(t: string, i: nat)
    requires i <= |t|
  {
    i == 0 || LineTerminator(t[i - 1])
  }

  predicate StartsWithAt(t: string, i: nat, w: string) {
    i + |w| <= |t| && t[i..i + |w|] == w
  }

  /** A CRLF line break at `i`. */
  predicate CrlfAt(t: string, i: nat) {
    i + 2 <= |t| && t[i] == '\r' && t[i + 1] == '\n'
  }

  /** A line as the file holds it: not empty and free of line terminators. */
  predicate PlainLine(l: string) {
    l != [] && forall j :: 0 <= j < |l| ==> !LineTerminator(l[j])
  }

  /** How much `.*` consumes at `i`: the run of characters up to the next line terminator. */
  function RunLength(t: string, i: nat): (n: nat)
    requires i <= |t|
    ensures i + n <= |t|
    decreases |t| - i
  {
    if i == |t| || LineTerminator(t[i]) then 0 else 1 + RunLength(t, i + 1)
  }

  /** The run holds no line terminator and stops at one or at the end of the text. */
  lemma {:induction false} RunEnds(t: string, i: nat)
    requires i <= |t|
    ensures forall j :: i <= j < i + RunLength(t, i) ==> !LineTerminator(t[j])
    ensures i + RunLength(t, i) == |t| || LineTerminator(t[i + RunLength(t, i)])
    decreases |t| - i
  {
    if i < |t| && !LineTerminator(t[i]) {
      RunEnds(t, i + 1);
    }
  }

  /** A run that ends at a line terminator or at the end of the text is as long as the line it spans. */
  lemma {:induction false} RunOver(t: string, i: nat, l: string)
    requires StartsWithAt(t, i, l)
    requires forall j :: 0 <= j < |l| ==> !LineTerminator(l[j])
    requires i + |l| == |t| || LineTerminator(t[i + |l|])
    ensures RunLength(t, i) == |l|
    decreases |l|
  {
    if l != [] {
      assert t[i] == l[0];
      assert t[i + 1..i + 1 + |l[1..]|] == l[1..];
      RunOver(t, i + 1, l[1..]);
    }
  }

  /** A run inside a slice that ends at a line terminator is the run in the whole text. */
  lemma {:induction false} RunLengthSlice(t: string, s: nat, e: nat, k: nat)
    requires s + k <= e <= |t|
    requires e == |t| || LineTerminator(t[e])
    ensures RunLength(t[s..e], k) == RunLength(t, s + k)
    decreases e - (s + k)
  {
    if s + k < e && !LineTerminator(t[s + k]) {
      RunLengthSlice(t, s, e, k + 1);
    }
  }

  /**
   * `s.match(/^.*$/gm).filter(identity)`: every match of `^.*$` is a run of
   * non-terminators starting at a line start, and dropping the empty ones
   * leaves the maximal runs, in order.
   */
  function NonEmptyLines(s: string): seq<string> {
    LinesFrom(s, 0)
  }

  function LinesFrom(s: string, i: nat): seq<string>
    requires i <= |s|
    decreases |s| - i
  {
    if i == |s| then []
    else if LineTerminator(s[i]) then LinesFrom(s, i + 1)
    else [s[i..i + RunLength(s, i)]] + LinesFrom(s, i + RunLength(s, i))
  }

  /** Every line `NonEmptyLines` returns is a plain line of the text. */
  lemma {:induction false} LinesArePlain(s: string, i: nat)
    requires i <= |s|
    ensures forall k :: 0 <= k < |LinesFrom(s, i)| ==> PlainLine(LinesFrom(s, i)[k])
    decreases |s| - i
  {
    if i < |s| {
      if LineTerminator(s[i]) {
        LinesArePlain(s, i + 1);
      } else {
        var n := RunLength(s, i);
        RunEnds(s, i);
        LinesArePlain(s, i + n);
        var rest := LinesFrom(s, i + n);
        assert LinesFrom(s, i) == [s[i..i + n]] + rest;
        forall k | 0 < k < |LinesFrom(s, i)| ensures LinesFrom(s, i)[k] == rest[k - 1] {
        }
      }
    }
  }

  // ---------------------------------------------------------------------------
  // Categories: `findCategoryValue`

  /** `PROPERTY_CATEGORY`. */
  datatype Category = General | Editor | Metadata | Difficulty | Events | TimingPoints | Colours | HitObjects

  function CategoryName(c: Category): string {
    match c
    case General => "General"
    case Editor => "Editor"
    case Metadata => "Metadata"
    case Difficulty => "Difficulty"
    case Events => "Events"
    case TimingPoints => "TimingPoints"
    case Colours => "Colours"
    case HitObjects => "HitObjects"
  }

  /** The `[Name]` line that opens a category. */
  function Header(c: Category): string {
    "[" + CategoryName(c) + "]"
  }

  /** How many characters `(\r\n.+)+` matches at `i`; it is greedy and nothing follows it, so the longest. */
  function BodyLength(t: string, i: nat): (n: nat)
    requires i <= |t|
    ensures i + n <= |t|
    decreases |t| - i
  {
    if !CrlfAt(t, i) then 0
    else
      var r := RunLength(t, i + 2);
      if r == 0 then 0 else 2 + r + BodyLength(t, i + 2 + r)
  }

  /** The lines `(\r\n.+)+` passes over at `i`. */
  function BodyLines(t: string, i: nat): seq<string>
    requires i <= |t|
    decreases |t| - i
  {
    if !CrlfAt(t, i) then []
    else
      var r := RunLength(t, i + 2);
      if r == 0 then [] else [t[i + 2..i + 2 + r]] + BodyLines(t, i + 2 + r)
  }

  /** A body that matched ends at the end of the text or at a line terminator. */
  lemma {:induction false} BodyEnd(t: string, i: nat)
    requires i <= |t| && BodyLength(t, i) > 0
    ensures i + BodyLength(t, i) == |t| || LineTerminator(t[i + BodyLength(t, i)])
    decreases |t| - i
  {
    var j := BodyMatches(t, i);
    BodyStep(t, i, j);
    RunEnds(t, i + 2);
    if BodyLength(t, j) > 0 {
      BodyEnd(t, j);
    }
  }

  /** `^\[Name\](\r\n.+)+` matches at `i`. */
  predicate SectionAt(t: string, c: Category, i: nat)
    requires i <= |t|
  {
    LineStart(t, i) && StartsWithAt(t, i, Header(c)) && BodyLength(t, i + |Header(c)|) > 0
  }

  /** The first position from `i` to `n` where `p` holds: how `exec` scans a text. */
  function First(p: nat -> bool, i: nat, n: nat): (r: Option<nat>)
    ensures r.Some? ==> i <= r.value <= n && p(r.value)
    decreases n - i
  {
    if i > n then None
    else if p(i) then Some(i)
    else First(p, i + 1, n)
  }

  /** The position found is the first where `p` holds, and `None` means it holds nowhere. */
  lemma {:induction false} FirstIsFirst(p: nat -> bool, i: nat, n: nat)
    ensures match First(p, i, n)
      case Some(j) => forall k :: i <= k < j ==> !p(k)
      case None => forall k :: i <= k <= n ==> !p(k)
    decreases n - i
  {
    if i <= n && !p(i) {
      FirstIsFirst(p, i + 1, n);
    }
  }

  /** Where the category's regular expression matches. */
  function SectionMatches(t: string, c: Category): nat -> bool {
    (k: nat) => k <= |t| && SectionAt(t, c, k)
  }

  /** The first position where the category's regular expression matches. */
  function FindSection(t: string, c: Category): (r: Option<nat>)
    ensures r.Some? ==> r.value <= |t| && SectionAt(t, c, r.value)
  {
    First(SectionMatches(t, c), 0, |t|)
  }

  /** The section found is the first position that matches, and `None` means none does. */
  lemma FindSectionFirst(t: string, c: Category)
    ensures match FindSection(t, c)
      case Some(j) => forall k :: 0 <= k < j ==> !SectionAt(t, c, k)
      case None => forall k :: 0 <= k <= |t| ==> !SectionAt(t, c, k)
  {
    var p := SectionMatches(t, c);
    FirstIsFirst(p, 0, |t|);
    match FindSection(t, c)
    case Some(j) =>
      forall k | 0 <= k < j ensures !SectionAt(t, c, k) {
        assert !p(k);
      }
    case None =>
      forall k | 0 <= k <= |t| ensures !SectionAt(t, c, k) {
        assert !p(k);
      }
  }

  /** `findCategoryValue(textContent, category)`: the `value` group, or `undefined`. */
  function FindCategoryValue(t: string, c: Category): Option<string> {
    match FindSection(t, c)
    case None => None
    case Some(i) =>
      var s := i + |Header(c)|;
      Some(t[s..s + BodyLength(t, s)])
  }

  /** `LinesFrom` passes over a CRLF and takes the line after it. */
  lemma LinesAfterCrlf(v: string, k: nat, m: nat)
    requires CrlfAt(v, k) && k + 2 < m && RunLength(v, k + 2) == m - k - 2
    ensures LinesFrom(v, k) == [v[k + 2..m]] + LinesFrom(v, m)
  {
    assert LinesFrom(v, k) == LinesFrom(v, k + 1);
  }

  /** A body that matches at `i` starts with a CRLF and a non-empty line ending at `j`. */
  lemma BodyMatches(t: string, i: nat) returns (j: nat)
    requires i <= |t| && BodyLength(t, i) > 0
    ensures CrlfAt(t, i) && i + 2 < j <= |t| && RunLength(t, i + 2) == j - i - 2
  {
    j := i + 2 + RunLength(t, i + 2);
  }

  /** One step of a body at `i`: a CRLF, a non-empty line ending at `j`, and the body after it. */
  lemma BodyStep(t: string, i: nat, j: nat)
    requires CrlfAt(t, i) && i + 2 < j <= |t| && RunLength(t, i + 2) == j - i - 2
    ensures BodyLength(t, i) == j - i + BodyLength(t, j)
    ensures BodyLines(t, i) == [t[i + 2..j]] + BodyLines(t, j)
  {
  }

  /** A text that is one whole body splits into exactly the lines the body passes over. */
  lemma {:induction false} BodyLinesAreLines(v: string, k: nat)
    requires k <= |v| && BodyLength(v, k) == |v| - k
    ensures LinesFrom(v, k) == BodyLines(v, k)
    decreases |v| - k
  {
    if k < |v| {
      var m := BodyMatches(v, k);
      BodyStep(v, k, m);
      LinesAfterCrlf(v, k, m);
      BodyLinesAreLines(v, m);
    }
  }

  /** A body keeps its length when the text is cut just after it. */
  lemma {:induction false} BodyLengthSlice(t: string, s: nat, e: nat, i: nat)
    requires s <= i <= e <= |t|
    requires BodyLength(t, i) == e - i
    requires e == |t| || LineTerminator(t[e])
    ensures BodyLength(t[s..e], i - s) == e - i
    decreases e - i
  {
    if i < e {
      var j := BodyMatches(t, i);
      BodyStep(t, i, j);
      BodyLengthSlice(t, s, e, j);
      var v := t[s..e];
      var a, b := i - s, j - s;
      assert CrlfAt(v, a) by {
        assert v[a] == t[i] && v[a + 1] == t[i + 1];
      }
      RunLengthSlice(t, s, e, a + 2);
      assert s + (a + 2) == i + 2;
      BodyStep(v, a, b);
      assert BodyLength(v, b) == e - j;
    } else {
      assert |t[s..e]| == i - s;
    }
  }

  /** The value `findCategoryValue` returns is one whole, non-empty `(\r\n.+)+` body. */
  lemma SectionValueIsBody(t: string, c: Category)
    requires FindCategoryValue(t, c).Some?
    ensures var v := FindCategoryValue(t, c).value; BodyLength(v, 0) == |v| > 0
  {
    var s := FindSection(t, c).value + |Header(c)|;
    var e := s + BodyLength(t, s);
    BodyEnd(t, s);
    BodyLengthSlice(t, s, e, s);
  }

  /**
   * The lines `extractHitObjects` reads from a category's value are exactly
   * the lines the body passes over: non-empty, free of line terminators, in
   * order.
   */
  lemma SectionLines(t: string, c: Category)
    requires FindCategoryValue(t, c).Some?
    ensures var v := FindCategoryValue(t, c).value; NonEmptyLines(v) == BodyLines(v, 0)
    ensures var lines := NonEmptyLines(FindCategoryValue(t, c).value);
      forall k :: 0 <= k < |lines| ==> PlainLine(lines[k])
  {
    var v := FindCategoryValue(t, c).value;
    SectionValueIsBody(t, c);
    BodyLinesAreLines(v, 0);
    LinesArePlain(v, 0);
  }

  /** Lines written one after another, each preceded by CRLF. */
  function CrlfJoin(lines: seq<string>): string {
    if lines == [] then [] else "\r\n" + lines[0] + CrlfJoin(lines[1..])
  }

  /** What may follow the last line of a section: the end of the file, a final CRLF, or an empty line. */
  predicate SectionEnd(rest: string) {
    rest == [] || (CrlfAt(rest, 0) && (|rest| == 2 || LineTerminator(rest[2])))
  }

  /** No body matches where the section has ended. */
  lemma BodyAtEnd(pre: string, rest: string)
    requires SectionEnd(rest)
    ensures BodyLength(pre + rest, |pre|) == 0 && BodyLines(pre + rest, |pre|) == []
  {
    var t := pre + rest;
    if rest != [] {
      assert t[|pre|] == rest[0] && t[|pre| + 1] == rest[1];
      if |rest| > 2 {
        assert t[|pre| + 2] == rest[2];
      }
    }
  }

  /** A CRLF and a plain line that the end of the text or a CR follows is one step of a body. */
  lemma LineAt(t: string, i: nat, l: string, j: nat)
    requires PlainLine(l) && CrlfAt(t, i) && StartsWithAt(t, i + 2, l) && j == i + 2 + |l|
    requires j == |t| || t[j] == '\r'
    ensures BodyLength(t, i) == j - i + BodyLength(t, j)
    ensures BodyLines(t, i) == [l] + BodyLines(t, j)
  {
    RunOver(t, i + 2, l);
    BodyStep(t, i, j);
  }

  /** What follows the joined lines, if anything, starts with a CR. */
  lemma JoinThenEnd(lines: seq<string>, rest: string)
    requires SectionEnd(rest)
    ensures CrlfJoin(lines) + rest == [] || (CrlfJoin(lines) + rest)[0] == '\r'
  {
    if lines != [] {
      assert (CrlfJoin(lines) + rest)[0] == CrlfJoin(lines)[0];
    } else {
      assert CrlfJoin(lines) + rest == rest;
    }
  }

  /** A CRLF and a line written after `pre`, seen in the whole text. */
  lemma LineWritten(pre: string, l: string, u: string)
    requires u == [] || u[0] == '\r'
    ensures var t := pre + "\r\n" + l + u;
      CrlfAt(t, |pre|) && StartsWithAt(t, |pre| + 2, l) && (|pre| + 2 + |l| == |t| || t[|pre| + 2 + |l|] == '\r')
  {
    var t := pre + "\r\n" + l + u;
    assert t[|pre|] == '\r' && t[|pre| + 1] == '\n';
    assert t[|pre| + 2..|pre| + 2 + |l|] == l;
    if u != [] {
      assert t[|pre| + 2 + |l|] == u[0];
    }
  }

  /** The text with its first joined line split off. */
  lemma JoinSplit(pre: string, lines: seq<string>, rest: string)
    requires lines != []
    ensures pre + CrlfJoin(lines) + rest == pre + "\r\n" + lines[0] + (CrlfJoin(lines[1..]) + rest)
    ensures pre + CrlfJoin(lines) + rest == (pre + "\r\n" + lines[0]) + CrlfJoin(lines[1..]) + rest
  {
    assert CrlfJoin(lines) == "\r\n" + lines[0] + CrlfJoin(lines[1..]);
    Regroup(pre, "\r\n", lines[0], CrlfJoin(lines[1..]), rest);
  }

  lemma Regroup<T>(a: seq<T>, x: seq<T>, y: seq<T>, z: seq<T>, r: seq<T>)
    ensures a + (x + y + z) + r == a + x + y + (z + r)
    ensures a + (x + y + z) + r == (a + x + y) + z + r
  {
  }

  /** The text `pre`, then the lines joined, then `rest`. */
  function Joined(pre: string, lines: seq<string>, rest: string): string {
    pre + CrlfJoin(lines) + rest
  }

  /** The first joined line is one step of the body. */
  lemma JoinStep(pre: string, lines: seq<string>, rest: string) returns (pre': string)
    requires lines != [] && PlainLine(lines[0]) && SectionEnd(rest)
    ensures |pre'| == |pre| + 2 + |lines[0]|
    ensures |CrlfJoin(lines)| == 2 + |lines[0]| + |CrlfJoin(lines[1..])|
    ensures BodyLength(Joined(pre, lines, rest), |pre|) == |pre'| - |pre| + BodyLength(Joined(pre', lines[1..], rest), |pre'|)
    ensures BodyLines(Joined(pre, lines, rest), |pre|) == [lines[0]] + BodyLines(Joined(pre', lines[1..], rest), |pre'|)
  {
    var t := Joined(pre, lines, rest);
    var l, tail := lines[0], CrlfJoin(lines[1..]);
    pre' := pre + "\r\n" + l;
    JoinSplit(pre, lines, rest);
    JoinThenEnd(lines[1..], rest);
    LineWritten(pre, l, tail + rest);
    LineAt(t, |pre|, l, |pre'|);
  }

  /** Lines joined after a prefix, followed by the end of a section, are one whole body and its lines. */
  lemma {:induction false} BodyOfJoin(pre: string, lines: seq<string>, rest: string)
    requires forall k :: 0 <= k < |lines| ==> PlainLine(lines[k])
    requires SectionEnd(rest)
    ensures BodyLength(Joined(pre, lines, rest), |pre|) == |CrlfJoin(lines)|
    ensures BodyLines(Joined(pre, lines, rest), |pre|) == lines
    decreases |lines|
  {
    if lines == [] {
      assert Joined(pre, lines, rest) == pre + rest;
      BodyAtEnd(pre, rest);
    } else {
      var pre' := JoinStep(pre, lines, rest);
      BodyOfJoin(pre', lines[1..], rest);
      assert lines == [lines[0]] + lines[1..];
    }
  }

  /** Non-empty lines joined with CRLF split back into the same lines. */
  lemma JoinedLines(lines: seq<string>)
    requires forall k :: 0 <= k < |lines| ==> PlainLine(lines[k])
    ensures NonEmptyLines(CrlfJoin(lines)) == lines
  {
    var v := CrlfJoin(lines);
    BodyOfJoin([], lines, []);
    JoinedAlone(lines);
    assert BodyLength(v, 0) == |v| && BodyLines(v, 0) == lines;
    BodyLinesAreLines(v, 0);
  }

  lemma JoinedAlone(lines: seq<string>)
    ensures Joined([], lines, []) == CrlfJoin(lines)
  {
    assert [] + CrlfJoin(lines) + [] == CrlfJoin(lines);
  }

  /** The prefix and the joined lines can be read back out of the text. */
  lemma JoinedParts(pre: string, lines: seq<string>, rest: string)
    ensures StartsWithAt(Joined(pre, lines, rest), 0, pre)
    ensures StartsWithAt(Joined(pre, lines, rest), |pre|, CrlfJoin(lines))
  {
    var t := Joined(pre, lines, rest);
    assert t[0..|pre|] == pre;
    assert t[|pre|..|pre| + |CrlfJoin(lines)|] == CrlfJoin(lines);
  }

  /** A category header at the top of the text with a body after it is where the section is found. */
  lemma SectionOnFirstLine(t: string, c: Category)
    requires StartsWithAt(t, 0, Header(c)) && BodyLength(t, |Header(c)|) > 0
    ensures FindSection(t, c) == Some(0)
  {
    assert SectionMatches(t, c)(0);
  }

  /**
   * A section written as its header followed by CRLF-separated non-empty
   * lines at the top of the text is found there, and its value is those
   * lines joined.
   */
  lemma SectionAtTop(c: Category, lines: seq<string>, rest: string)
    requires lines != [] && forall k :: 0 <= k < |lines| ==> PlainLine(lines[k])
    requires SectionEnd(rest)
    ensures FindSection(Joined(Header(c), lines, rest), c) == Some(0)
    ensures FindCategoryValue(Joined(Header(c), lines, rest), c) == Some(CrlfJoin(lines))
  {
    var h := Header(c);
    var t := Joined(h, lines, rest);
    BodyOfJoin(h, lines, rest);
    assert |CrlfJoin(lines)| > 0 by {
      assert CrlfJoin(lines) == "\r\n" + lines[0] + CrlfJoin(lines[1..]);
    }
    JoinedParts(h, lines, rest);
    SectionOnFirstLine(t, c);
  }

  /** Such a section reads back as exactly the lines it was written from. */
  lemma SectionRoundTrip(c: Category, lines: seq<string>, rest: string)
    requires lines != [] && forall k :: 0 <= k < |lines| ==> PlainLine(lines[k])
    requires SectionEnd(rest)
    ensures FindCategoryValue(Joined(Header(c), lines, rest), c).Some?
    ensures NonEmptyLines(FindCategoryValue(Joined(Header(c), lines, rest), c).value) == lines
  {
    SectionAtTop(c, lines, rest);
    JoinedLines(lines);
  }

  // ---------------------------------------------------------------------------
  // Properties: `findPropertyValue`

  /** `PROPERTY`. */
  datatype Property =
    | AudioFilename | AudioLeadIn | PreviewTime
    | Title | Artist | BeatmapSetId
    | OverallDifficulty | CircleSize
    | ImageFilename

  /** The key a property is written under. */
  function PropertyName(p: Property): string {
    match p
    case AudioFilename => "AudioFilename"
    case AudioLeadIn => "AudioLeadIn"
    case PreviewTime => "PreviewTime"
    case Title => "Title"
    case Artist => "Artist"
    case BeatmapSetId => "BeatmapSetID"
    case OverallDifficulty => "OverallDifficulty"
    case CircleSize => "CircleSize"
    case ImageFilename => "ImageFilename"
  }

  /** `beatmapLevelProperties`: the categories and their properties, in insertion order. */
  const LevelProperties: seq<(Category, seq<Property>)> := [
    (General, [AudioFilename, AudioLeadIn, PreviewTime]),
    (Metadata, [Title, Artist, BeatmapSetId]),
    (Difficulty, [OverallDifficulty, CircleSize]),
    (Events, [ImageFilename])
  ]

  /** `[...table.keys()].find((k) => table.get(k)?.includes(property))`. */
  function CategoryIn(table: seq<(Category, seq<Property>)>, p: Property): (r: Option<Category>)
    ensures r.Some? ==> exists k :: 0 <= k < |table| && table[k] == (r.value, table[k].1) && p in table[k].1
    ensures r.None? ==> forall k :: 0 <= k < |table| ==> p !in table[k].1
  {
    if table == [] then None
    else if p in table[0].1 then Some(table[0].0)
    else
      var r := CategoryIn(table[1..], p);
      assert forall k :: 0 < k < |table| ==> table[k] == table[1..][k - 1];
      r
  }

  /** The category `findPropertyValue` files a property under. */
  function CategoryOf(p: Property): Option<Category> {
    CategoryIn(LevelProperties, p)
  }

  /** The properties `beatmapLevelProperties.get(c)` lists, none for a category it does not hold. */
  function PropertiesOf(c: Category): seq<Property> {
    match c
    case General => LevelProperties[0].1
    case Metadata => LevelProperties[1].1
    case Difficulty => LevelProperties[2].1
    case Events => LevelProperties[3].1
    case _ => []
  }

  /** Every property is listed under some category, so the category `assert` never fails. */
  lemma CategoryOfListed(p: Property)
    ensures CategoryOf(p).Some? && p in PropertiesOf(CategoryOf(p).value)
  {
  }

  /** A property is listed under one category only: the one `findPropertyValue` finds. */
  lemma CategoryOfUnique(p: Property, c: Category)
    requires p in PropertiesOf(c)
    ensures CategoryOf(p) == Some(c)
  {
  }

  /** `^` followed by `w`: a line that starts with `w`. */
  function LineMatches(t: string, w: string): nat -> bool {
    (k: nat) => k <= |t| && LineStart(t, k) && StartsWithAt(t, k, w)
  }

  /** The first line start at which `w` is written. */
  function FindLine(t: string, w: string): (r: Option<nat>)
    ensures r.Some? ==> r.value <= |t| && LineStart(t, r.value) && StartsWithAt(t, r.value, w)
  {
    First(LineMatches(t, w), 0, |t|)
  }

  /** `new RegExp(`^${w}(?<value>.*)$`, "gm").exec(t)?.groups?.value`: the rest of the first line that starts with `w`. */
  function LineValue(t: string, w: string): Option<string> {
    match FindLine(t, w)
    case None => None
    case Some(i) =>
      var s := i + |w|;
      Some(t[s..s + RunLength(t, s)])
  }

  /** No line before the one found starts with `w`, and `None` means no line does. */
  lemma FindLineFirst(t: string, w: string)
    ensures match FindLine(t, w)
      case Some(j) => forall k :: 0 <= k < j ==> !(LineStart(t, k) && StartsWithAt(t, k, w))
      case None => forall k :: 0 <= k <= |t| ==> !(LineStart(t, k) && StartsWithAt(t, k, w))
  {
    var p := LineMatches(t, w);
    FirstIsFirst(p, 0, |t|);
    match FindLine(t, w)
    case Some(j) =>
      forall k | 0 <= k < j ensures !(LineStart(t, k) && StartsWithAt(t, k, w)) {
        assert !p(k);
      }
    case None =>
      forall k | 0 <= k <= |t| ensures !(LineStart(t, k) && StartsWithAt(t, k, w)) {
        assert !p(k);
      }
  }

  /** The value is the whole rest of its line: free of line terminators and followed by one or by the end of the text. */
  lemma LineValueRestOfLine(t: string, w: string)
    requires FindLine(t, w).Some?
    ensures var s := FindLine(t, w).value + |w|; var v := LineValue(t, w).value;
      s + |v| <= |t| && t[s..s + |v|] == v &&
      (forall j :: 0 <= j < |v| ==> !LineTerminator(v[j])) &&
      (s + |v| == |t| || LineTerminator(t[s + |v|]))
  {
    var s := FindLine(t, w).value + |w|;
    RunEnds(t, s);
  }

  /** A key written at the top of the text reads back the rest of its line. */
  lemma LineValueAtTop(w: string, v: string, rest: string)
    requires forall j :: 0 <= j < |v| ==> !LineTerminator(v[j])
    requires rest == [] || LineTerminator(rest[0])
    ensures LineValue(w + v + rest, w) == Some(v)
  {
    var t := w + v + rest;
    assert t[0..|w|] == w;
    assert LineMatches(t, w)(0);
    assert t[|w|..|w| + |v|] == v;
    if rest != [] {
      assert t[|w| + |v|] == rest[0];
    }
    RunOver(t, |w|, v);
  }

  /** `findPropertyValue(textContent, property)`; the category `assert` throws when a property has no category. */
  function FindPropertyValue(t: string, p: Property): Result<Option<string>> {
    match CategoryOf(p)
    case None => Failure("Assertion error: Category not found for property " + PropertyName(p))
    case Some(c) =>
      match c
      case General => Success(LineValue(t, PropertyName(p) + ": "))
      case Editor => Success(LineValue(t, PropertyName(p) + ": "))
      case Metadata => Success(LineValue(t, PropertyName(p) + ":"))
      case Difficulty => Success(LineValue(t, PropertyName(p) + ":"))
      case Events =>
        (match FindCategoryValue(t, c)
         case None => Success(None)
         case Some(v) =>
           if v == [] then Success(None)
           else if p == ImageFilename then Success(BackgroundImage(v))
           else Success(None))
      case _ => Success(None)
  }

  /** `General` properties are read from the first `Key: value` line, with one space after the colon. */
  lemma GeneralPropertyAtTop(p: Property, v: string, rest: string)
    requires p == AudioFilename || p == AudioLeadIn || p == PreviewTime
    requires forall j :: 0 <= j < |v| ==> !LineTerminator(v[j])
    requires rest == [] || LineTerminator(rest[0])
    ensures FindPropertyValue(PropertyName(p) + ": " + v + rest, p) == Success(Some(v))
  {
    CategoryOfListed(p);
    LineValueAtTop(PropertyName(p) + ": ", v, rest);
  }

  /** `Metadata` and `Difficulty` properties are read from the first `Key:value` line; a space after the colon stays in the value. */
  lemma MetadataPropertyAtTop(p: Property, v: string, rest: string)
    requires p == Title || p == Artist || p == BeatmapSetId || p == OverallDifficulty || p == CircleSize
    requires forall j :: 0 <= j < |v| ==> !LineTerminator(v[j])
    requires rest == [] || LineTerminator(rest[0])
    ensures FindPropertyValue(PropertyName(p) + ":" + v + rest, p) == Success(Some(v))
  {
    CategoryOfListed(p);
    LineValueAtTop(PropertyName(p) + ":", v, rest);
  }

  /** A property lookup never fails: only its value can be missing. */
  lemma PropertyLookupSucceeds(t: string, p: Property)
    ensures FindPropertyValue(t, p).Success?
  {
    CategoryOfListed(p);
  }

  // The background image of the `[Events]` section

  /** The comment line the background event follows, with its CRLF. */
  const BackgroundComment: string := "//Background and Video events\r\n"

  /** The last `"` in `v[lo..hi]`. */
  function LastQuote(v: string, lo: nat, hi: nat): (r: Option<nat>)
    requires lo <= hi <= |v|
    ensures r.Some? ==> lo <= r.value < hi && v[r.value] == '"' && forall k :: r.value < k < hi ==> v[k] != '"'
    ensures r.None? ==> forall k :: lo <= k < hi ==> v[k] != '"'
    decreases hi - lo
  {
    if lo == hi then None
    else if v[hi - 1] == '"' then Some(hi - 1)
    else LastQuote(v, lo, hi - 1)
  }

  /**
   * The two quotes `(?=.*"(?<image>.*)")` settles on in the line starting
   * at `j`: both `.*` are greedy, so the last quote of the line and the one
   * before it.
   */
  function QuotePair(v: string, j: nat): Option<(nat, nat)>
    requires j <= |v|
  {
    match LastQuote(v, j, j + RunLength(v, j))
    case None => None
    case Some(q2) =>
      match LastQuote(v, j, q2)
      case None => None
      case Some(q1) => Some((q1, q2))
  }

  /** The regular expression for the background image matches at `i`. */
  function ImageMatches(v: string): nat -> bool {
    (i: nat) => i <= |v| && LineStart(v, i) && StartsWithAt(v, i, BackgroundComment) &&
      QuotePair(v, i + |BackgroundComment|).Some?
  }

  /** `/^\/\/Background and Video events\r\n(?=.*"(?<image>.*)")/gm.exec(v)?.groups?.image`. */
  function BackgroundImage(v: string): Option<string> {
    match First(ImageMatches(v), 0, |v|)
    case None => None
    case Some(i) =>
      var q := QuotePair(v, i + |BackgroundComment|).value;
      Some(v[q.0 + 1..q.1])
  }

  /** A line `before"name"after` whose name and tail hold no quote: the pair found encloses `name`. */
  lemma QuotePairOfLine(v: string, j: nat, before: string, name: string, after: string)
    requires StartsWithAt(v, j, before + "\"" + name + "\"" + after)
    requires PlainText(before) && PlainText(name) && PlainText(after)
    requires NoQuote(name) && NoQuote(after)
    requires var e := j + |before| + |name| + |after| + 2; e == |v| || LineTerminator(v[e])
    ensures QuotePair(v, j) == Some((j + |before|, j + |before| + |name| + 1))
    ensures v[j + |before| + 1..j + |before| + |name| + 1] == name
  {
    var line := before + "\"" + name + "\"" + after;
    var q1, q2 := j + |before|, j + |before| + |name| + 1;
    assert v[j..j + |line|] == line;
    forall k | 0 <= k < |line| ensures !LineTerminator(line[k]) {
    }
    RunOver(v, j, line);
    assert v[q1] == line[|before|] == '"';
    assert v[q2] == line[|before| + |name| + 1] == '"';
    assert forall k :: q2 < k < j + |line| ==> v[k] == after[k - q2 - 1];
    assert forall k :: q1 < k < q2 ==> v[k] == name[k - q1 - 1];
    assert v[q1 + 1..q2] == name;
  }

  /** No line terminator in `s`. */
  predicate PlainText(s: string) {
    forall k :: 0 <= k < |s| ==> !LineTerminator(s[k])
  }

  /** No `"` in `s`. */
  predicate NoQuote(s: string) {
    forall k :: 0 <= k < |s| ==> s[k] != '"'
  }

  /** The background comment found on the second line of `v`, the image taken from the line after it. */
  lemma ImageOnSecondLine(v: string, before: string, name: string, after: string)
    requires |v| >= 2 && v[0] == '\r' && v[1] == '\n' && StartsWithAt(v, 2, BackgroundComment)
    requires PlainText(before) && PlainText(name) && PlainText(after)
    requires NoQuote(name) && NoQuote(after)
    requires StartsWithAt(v, 2 + |BackgroundComment|, before + "\"" + name + "\"" + after)
    requires var e := 2 + |BackgroundComment| + |before| + |name| + |after| + 2; e == |v| || LineTerminator(v[e])
    ensures BackgroundImage(v) == Some(name)
  {
    var j := 2 + |BackgroundComment|;
    QuotePairOfLine(v, j, before, name, after);
    var m := ImageMatches(v);
    assert !m(0) by {
      assert v[0] != BackgroundComment[0];
    }
    assert !m(1) by {
      assert v[1] != BackgroundComment[0];
    }
    assert m(2);
    assert First(m, 0, |v|) == First(m, 1, |v|) == First(m, 2, |v|) == Some(2);
  }

  /**
   * An `[Events]` body whose first line is the background comment and whose
   * second is `before"name"after` yields `name`: the text between the last
   * two quotes of that line.
   */
  lemma BackgroundImageOfEvents(before: string, name: string, after: string, rest: string)
    requires PlainText(before) && PlainText(name) && PlainText(after)
    requires NoQuote(name) && NoQuote(after)
    requires rest == [] || LineTerminator(rest[0])
    ensures BackgroundImage("\r\n" + BackgroundComment + before + "\"" + name + "\"" + after + rest) == Some(name)
  {
    var line := before + "\"" + name + "\"" + after;
    var v := "\r\n" + BackgroundComment + before + "\"" + name + "\"" + after + rest;
    var b := |BackgroundComment|;
    assert v == "\r\n" + BackgroundComment + line + rest;
    assert v[2..2 + b] == BackgroundComment;
    assert v[2 + b..2 + b + |line|] == line;
    if rest != [] {
      assert v[2 + b + |line|] == rest[0];
    }
    ImageOnSecondLine(v, before, name, after);
  }

  // ---------------------------------------------------------------------------
  // Hit objects: `getCol` and `extractHitObjects`

  /** `s.split(sep)` for a one-character separator: the pieces between the separators, never none. */
  function Split(s: string, sep: char): (r: seq<string>)
    ensures |r| >= 1
  {
    if s == [] then [[]]
    else
      var rest := Split(s[1..], sep);
      if s[0] == sep then [[]] + rest else [[s[0]] + rest[0]] + rest[1..]
  }

  /** The pieces written back with `sep` between them: `pieces.join(sep)`. */
  function JoinWith(pieces: seq<string>, sep: char): string
    requires |pieces| >= 1
  {
    if |pieces| == 1 then pieces[0] else pieces[0] + [sep] + JoinWith(pieces[1..], sep)
  }

  predicate Free(s: string, sep: char) {
    forall k :: 0 <= k < |s| ==> s[k] != sep
  }

  /** Splitting loses nothing: the pieces hold no separator and join back into the text. */
  lemma {:induction false} SplitJoin(s: string, sep: char)
    ensures JoinWith(Split(s, sep), sep) == s
    ensures forall k :: 0 <= k < |Split(s, sep)| ==> Free(Split(s, sep)[k], sep)
  {
    if s != [] {
      SplitJoin(s[1..], sep);
      var rest := Split(s[1..], sep);
      if s[0] == sep {
        assert Split(s, sep)[1..] == rest;
        assert s == [] + [sep] + s[1..];
      } else {
        var r := Split(s, sep);
        assert r[0] == [s[0]] + rest[0];
        assert forall k :: 0 < k < |r| ==> r[k] == rest[k];
        if |rest| == 1 {
          assert s == [s[0]] + s[1..];
        } else {
          assert r[1..] == rest[1..];
          assert s == [s[0]] + (rest[0] + [sep] + JoinWith(rest[1..], sep));
        }
      }
    }
  }

  /** Pieces free of the separator, joined, split back into themselves. */
  lemma {:induction false} JoinSplitPieces(pieces: seq<string>, sep: char)
    requires |pieces| >= 1 && forall k :: 0 <= k < |pieces| ==> Free(pieces[k], sep)
    ensures Split(JoinWith(pieces, sep), sep) == pieces
    decreases |pieces|, |pieces[0]|
  {
    var p := pieces[0];
    if p == [] {
      if |pieces| > 1 {
        JoinSplitPieces(pieces[1..], sep);
        var s := JoinWith(pieces, sep);
        assert s == [sep] + JoinWith(pieces[1..], sep);
        assert s[1..] == JoinWith(pieces[1..], sep);
      }
    } else {
      var pieces' := [p[1..]] + pieces[1..];
      assert forall k :: 0 < k < |pieces'| ==> pieces'[k] == pieces[k];
      JoinSplitPieces(pieces', sep);
      var s := JoinWith(pieces, sep);
      if |pieces| == 1 {
        assert s[1..] == JoinWith(pieces', sep);
      } else {
        assert s == [p[0]] + (p[1..] + [sep] + JoinWith(pieces[1..], sep));
        assert s[1..] == JoinWith(pieces', sep);
      }
      assert [p[0]] + pieces'[0] == p;
      assert pieces == [p] + pieces'[1..];
    }
  }

  /** The piece before the first separator. */
  lemma {:induction false} SplitHead(a: string, b: string, sep: char)
    requires Free(a, sep)
    ensures Split(a + [sep] + b, sep)[0] == a
  {
    if a != [] {
      assert (a + [sep] + b)[1..] == a[1..] + [sep] + b;
      SplitHead(a[1..], b, sep);
    }
  }

  /** `fields[k]` in a destructuring pattern: `undefined` past the end. */
  function Field(fields: seq<string>, k: nat): Option<string> {
    if k < |fields| then Some(fields[k]) else None
  }

  /** The four fields `extractHitObjects` reads from a line, as numbers. */
  datatype HitObjectFields = HitObjectFields(x: JsNumber, hitTime: JsNumber, kind: JsNumber, endTime: JsNumber)

  /** `const [x_pos, , hit_t, type, , end_t] = current.split(":")[0].split(",")`, each passed through `Number`. */
  function ParseHitObject(line: string): HitObjectFields {
    var fields := Split(Split(line, ':')[0], ',');
    HitObjectFields(ToNumber(Field(fields, 0)), ToNumber(Field(fields, 2)), ToNumber(Field(fields, 3)), ToNumber(Field(fields, 5)))
  }

  /** A line `x,y,time,type,hitSound,endTime:extras` reads back its first, third, fourth and sixth fields. */
  lemma ParseFields(fields: seq<string>, extras: string)
    requires |fields| >= 6 && forall k :: 0 <= k < |fields| ==> Free(fields[k], ',') && Free(fields[k], ':')
    ensures ParseHitObject(JoinWith(fields, ',') + ":" + extras) ==
      HitObjectFields(StringToNumber(fields[0]), StringToNumber(fields[2]), StringToNumber(fields[3]), StringToNumber(fields[5]))
  {
    var head := JoinWith(fields, ',');
    SplitJoin(head, ':');
    assert Free(head, ':') by {
      JoinFree(fields, ',', ':');
    }
    SplitHead(head, extras, ':');
    JoinSplitPieces(fields, ',');
  }

  /** Joining pieces free of a character other than the separator leaves that character out. */
  lemma {:induction false} JoinFree(pieces: seq<string>, sep: char, c: char)
    requires |pieces| >= 1 && sep != c && forall k :: 0 <= k < |pieces| ==> Free(pieces[k], c)
    ensures Free(JoinWith(pieces, sep), c)
  {
    if |pieces| > 1 {
      JoinFree(pieces[1..], sep, c);
      var a, b := pieces[0], JoinWith(pieces[1..], sep);
      assert forall k :: 0 <= k < |a + [sep] + b| ==> (a + [sep] + b)[k] == if k < |a| then a[k] else if k == |a| then sep else b[k - |a| - 1];
    }
  }

  /** `getCol(x_pos, n_cols)` = `Math.floor((x_pos * n_cols) / 512)`; `None` is NaN. */
  function GetCol(x: JsNumber, n: JsNumber): (r: Option<int>)
    ensures r.Some? <==> x.Finite? && n.Finite?
    ensures r.Some? ==> r.value as real <= x.value * n.value / 512.0 < r.value as real + 1.0
  {
    if x.NaN? || n.NaN? then None else Some((x.value * n.value / 512.0).Floor)
  }

  /** A position on the 512-wide playfield falls in one of the `n` columns. */
  lemma GetColInRange(x: real, n: nat)
    requires 0.0 <= x < 512.0 && n >= 1
    ensures var c := GetCol(Finite(x), Finite(n as real)).value; 0 <= c < n
  {
    var c := GetCol(Finite(x), Finite(n as real)).value;
    var m := n as real;
    assert (512.0 - x) * m > 0.0;
    assert 0.0 <= x * m;
    var q := x * m / 512.0;
    assert q < m;
    assert (c as real) < m;
  }

  /** `range(keysCount).length` (lodash): NaN counts as 0, anything else as the ceiling of its magnitude. */
  function ColumnCount(keysCount: JsNumber): (n: nat)
    ensures keysCount.Finite? && 0.0 <= keysCount.value == keysCount.value.Floor as real ==> n == keysCount.value.Floor
  {
    match keysCount
    case NaN => 0
    case Finite(v) =>
      var m := if v < 0.0 then -v else v;
      var f := m.Floor;
      if f as real == m then f else f + 1
  }

  /** What a line pushes onto its column: a HEAD and a TAIL for a hold note (type exactly 128), else one untyped note. */
  function LineNotes(h: HitObjectFields): seq<Note> {
    if h.kind == Finite(128.0) then [Note(h.hitTime, Some(Head)), Note(h.endTime, Some(Tail))]
    else [Note(h.hitTime, None)]
  }

  /** The column a line's notes go to, `None` when it is NaN. */
  function Column(h: HitObjectFields, keysCount: JsNumber): Option<int> {
    GetCol(h.x, keysCount)
  }

  /** `acc[col_n]` is `undefined` outside the columns, and pushing onto it throws. */
  const PushOnUndefined: string := "TypeError: Cannot read properties of undefined (reading 'push')"

  /** The `reduce` callback on a parsed line: skip a NaN column, push the line's notes onto its column, or throw. */
  function Accumulate(acc: seq<seq<Note>>, h: HitObjectFields, keysCount: JsNumber): Result<seq<seq<Note>>> {
    match Column(h, keysCount)
    case None => Success(acc)
    case Some(c) =>
      if 0 <= c < |acc| then Success(acc[c := acc[c] + LineNotes(h)]) else Failure(PushOnUndefined)
  }

  /** Every line parsed; parsing is pure and cannot throw, so parsing ahead of the reduce changes nothing. */
  function ParseLines(lines: seq<string>): (r: seq<HitObjectFields>)
    ensures |r| == |lines| && forall i :: 0 <= i < |lines| ==> r[i] == ParseHitObject(lines[i])
  {
    seq(|lines|, i requires 0 <= i < |lines| => ParseHitObject(lines[i]))
  }

  /** `reduce(callback, range(keysCount).map(() => []))` over the parsed lines; the first throw ends it. */
  function Reduce(objs: seq<HitObjectFields>, keysCount: JsNumber): Result<seq<seq<Note>>> {
    if objs == [] then Success(seq(ColumnCount(keysCount), _ => []))
    else
      match Reduce(objs[..|objs| - 1], keysCount)
      case Failure(e) => Failure(e)
      case Success(acc) => Accumulate(acc, objs[|objs| - 1], keysCount)
  }

  /** `extractHitObjects(textContent, keysCount)`: a missing `[HitObjects]` section fails the `assert`. */
  function HitObjectsOf(t: string, keysCount: JsNumber): Result<seq<seq<Note>>> {
    match FindCategoryValue(t, HitObjects)
    case None => Failure("Assertion error: undefined")
    case Some(v) => Reduce(ParseLines(NonEmptyLines(v)), keysCount)
  }

  /** The reduce over the section's lines, pushing onto per-column arrays in place. */
  method ExtractHitObjects(t: string, keysCount: JsNumber) returns (r: Result<seq<seq<Note>>>)
    ensures r == HitObjectsOf(t, keysCount)
  {
    var value := FindCategoryValue(t, HitObjects);
    if value.None? {
      return Failure("Assertion error: undefined");
    }
    var lines := NonEmptyLines(value.value);
    ghost var objs := ParseLines(lines);
    var acc := new seq<Note>[ColumnCount(keysCount)](_ => []);
    assert acc[..] == seq(ColumnCount(keysCount), _ => []);
    for i := 0 to |lines|
      invariant Reduce(objs[..i], keysCount) == Success(acc[..])
    {
      ghost var before := acc[..];
      var h := ParseHitObject(lines[i]);
      ReduceStep(objs, i, before, keysCount);
      var col := GetCol(h.x, keysCount);
      if col.Some? {
        var c := col.value;
        if !(0 <= c < acc.Length) {
          ReduceFails(objs, i + 1, keysCount);
          return Failure(PushOnUndefined);
        }
        acc[c] := acc[c] + LineNotes(h);
        assert acc[..] == before[c := before[c] + LineNotes(h)];
      }
    }
    assert objs[..|lines|] == objs;
    return Success(acc[..]);
  }

  /** One more line of the reduce. */
  lemma ReduceStep(objs: seq<HitObjectFields>, i: nat, acc: seq<seq<Note>>, keysCount: JsNumber)
    requires i < |objs| && Reduce(objs[..i], keysCount) == Success(acc)
    ensures Reduce(objs[..i + 1], keysCount) == Accumulate(acc, objs[i], keysCount)
  {
    assert objs[..i + 1][..i] == objs[..i];
  }

  /** Once the reduce has thrown on a prefix of the lines, it throws the same on all of them. */
  lemma {:induction false} ReduceFails(objs: seq<HitObjectFields>, i: nat, keysCount: JsNumber)
    requires i <= |objs| && Reduce(objs[..i], keysCount).Failure?
    ensures Reduce(objs, keysCount) == Reduce(objs[..i], keysCount)
    decreases |objs| - i
  {
    if i < |objs| {
      assert objs[..i + 1][..i] == objs[..i];
      ReduceFails(objs, i + 1, keysCount);
    } else {
      assert objs[..i] == objs;
    }
  }

  /** A line whose column is a number outside the columns: the push on it throws. */
  predicate OutOfColumns(h: HitObjectFields, keysCount: JsNumber) {
    var c := Column(h, keysCount);
    c.Some? && !(0 <= c.value < ColumnCount(keysCount))
  }

  /** The notes column `c` receives: those of the lines mapped to `c`, in line order. */
  function ColumnNotes(objs: seq<HitObjectFields>, keysCount: JsNumber, c: int): seq<Note> {
    if objs == [] then []
    else
      var last := objs[|objs| - 1];
      ColumnNotes(objs[..|objs| - 1], keysCount, c) + (if Column(last, keysCount) == Some(c) then LineNotes(last) else [])
  }

  /** A reduce that succeeds returns `range(keysCount).length` columns. */
  lemma {:induction false} ReduceShape(objs: seq<HitObjectFields>, keysCount: JsNumber)
    ensures Reduce(objs, keysCount).Success? ==> |Reduce(objs, keysCount).value| == ColumnCount(keysCount)
  {
    if objs != [] {
      ReduceShape(objs[..|objs| - 1], keysCount);
    }
  }

  /** The reduce throws exactly when some line maps to a column that does not exist. */
  lemma {:induction false} ReduceFailsIff(objs: seq<HitObjectFields>, keysCount: JsNumber)
    ensures Reduce(objs, keysCount).Success? <==> forall i :: 0 <= i < |objs| ==> !OutOfColumns(objs[i], keysCount)
  {
    if objs != [] {
      var init, last := objs[..|objs| - 1], objs[|objs| - 1];
      ReduceFailsIff(init, keysCount);
      assert forall i :: 0 <= i < |init| ==> init[i] == objs[i];
      match Reduce(init, keysCount)
      case Failure(_) =>
        var i :| 0 <= i < |init| && OutOfColumns(init[i], keysCount);
        assert OutOfColumns(objs[i], keysCount);
      case Success(acc) =>
        ReduceShape(init, keysCount);
        assert Reduce(objs, keysCount) == Accumulate(acc, last, keysCount);
    }
  }

  /**
   * When the reduce succeeds, column `c` holds the notes of the lines mapped
   * to `c`, in line order; lines with a NaN column contribute nothing.
   */
  lemma {:induction false} ReduceByColumn(objs: seq<HitObjectFields>, keysCount: JsNumber)
    ensures Reduce(objs, keysCount).Success? ==>
      var cols := Reduce(objs, keysCount).value;
      forall c :: 0 <= c < |cols| ==> cols[c] == ColumnNotes(objs, keysCount, c)
  {
    if objs != [] {
      var init := objs[..|objs| - 1];
      ReduceByColumn(init, keysCount);
      ReduceShape(init, keysCount);
      ReduceShape(objs, keysCount);
    }
  }

  /** The `[HitObjects]` section written at the top of the text is reduced line by line. */
  lemma HitObjectsOfSection(lines: seq<string>, rest: string, keysCount: JsNumber)
    requires lines != [] && forall k :: 0 <= k < |lines| ==> PlainLine(lines[k])
    requires SectionEnd(rest)
    ensures HitObjectsOf(Joined(Header(HitObjects), lines, rest), keysCount) == Reduce(ParseLines(lines), keysCount)
  {
    SectionRoundTrip(HitObjects, lines, rest);
  }

  /** Without a `[HitObjects]` section the `assert` fails. */
  lemma NoHitObjectsSection(t: string, keysCount: JsNumber)
    requires forall k :: 0 <= k <= |t| ==> !SectionAt(t, HitObjects, k)
    ensures HitObjectsOf(t, keysCount) == Failure("Assertion error: undefined")
  {
    FindSectionFirst(t, HitObjects);
  }

  lemma DigitsFree(s: string, c: char)
    requires AllDigits(s) && !IsDigit(c)
    ensures Free(s, c)
  {
  }

  /** Fields of decimal digits hold no separator. */
  lemma DigitFieldsFree(fields: seq<string>)
    requires forall k :: 0 <= k < |fields| ==> AllDigits(fields[k])
    ensures forall k :: 0 <= k < |fields| ==> Free(fields[k], ',') && Free(fields[k], ':')
  {
    forall k | 0 <= k < |fields| ensures Free(fields[k], ',') && Free(fields[k], ':') {
      DigitsFree(fields[k], ',');
      DigitsFree(fields[k], ':');
    }
  }

  /** The fields of a line written with natural numbers read back as those numbers. */
  lemma ParseNaturals(fields: seq<string>, values: seq<nat>, extras: string)
    requires |fields| == |values| >= 6 && forall k :: 0 <= k < |fields| ==> fields[k] == NatToString(values[k])
    ensures ParseHitObject(JoinWith(fields, ',') + ":" + extras)
      == HitObjectFields(Finite(values[0] as real), Finite(values[2] as real), Finite(values[3] as real), Finite(values[5] as real))
  {
    DigitFieldsFree(fields);
    ParseFields(fields, extras);
    NatRoundTrip(values[0]);
    NatRoundTrip(values[2]);
    NatRoundTrip(values[3]);
    NatRoundTrip(values[5]);
  }

  /**
   * A hold-note line (type 128) whose x lies on the 512-wide playfield, with
   * `n` columns: its column gets a HEAD at its time followed by a TAIL at its
   * end time.
   */
  lemma HoldNoteLine(acc: seq<seq<Note>>, x: nat, time: real, endTime: real, n: nat)
    requires x < 512 && n >= 1 && |acc| == n
    ensures var c := GetCol(Finite(x as real), Finite(n as real)).value;
      0 <= c < n &&
      Accumulate(acc, HitObjectFields(Finite(x as real), Finite(time), Finite(128.0), Finite(endTime)), Finite(n as real))
        == Success(acc[c := acc[c] + [Note(Finite(time), Some(Head)), Note(Finite(endTime), Some(Tail))]])
  {
    GetColInRange(x as real, n);
  }
}
