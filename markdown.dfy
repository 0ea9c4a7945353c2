/** The markdown splitter: `split_markdown_by_headers` cuts a document at its
    header lines, and `markdown_text_split` turns the sections into chunks. */
module Markdown {
  import opened Text

  // ---------------------------------------------------------------------
  // Header lines (`^(#{1,6} .+)$` with MULTILINE)
  // ---------------------------------------------------------------------

  /** The number of `#` characters a line starts with. */
  function HashRun(line: string): (k: nat)
    ensures k <= |line|
    decreases |line|
  {
    if |line| > 0 && line[0] == '#' then 1 + HashRun(line[1..]) else 0
  }

  /** `HashRun` is the length of the maximal run of `#` at the start. */
  lemma {:induction false} HashRunMaximal(line: string)
    ensures forall j :: 0 <= j < HashRun(line) ==> line[j] == '#'
    ensures HashRun(line) == |line| || line[HashRun(line)] != '#'
    decreases |line|
  {
    if |line| > 0 && line[0] == '#' {
      HashRunMaximal(line[1..]);
      forall j | 0 < j < HashRun(line) ensures line[j] == '#' {
        assert line[j] == line[1..][j - 1];
      }
    }
  }

  /** A header line: one to six `#`, a space, then at least one more
      character. */
  predicate IsHeaderLine(line: string) {
    var k := HashRun(line);
    1 <= k <= 6 && k + 1 < |line| && line[k] == ' '
  }

  /** The header test agrees with the pattern read literally: some run of
      one to six `#` is followed by a space and a non-empty rest. */
  lemma HeaderLineMeaning(line: string)
    ensures IsHeaderLine(line) <==>
      exists k :: 1 <= k <= 6 && k + 1 < |line| && (forall j :: 0 <= j < k ==> line[j] == '#') && line[k] == ' '
  {
    var n := HashRun(line);
    HashRunMaximal(line);
    if exists k :: 1 <= k <= 6 && k + 1 < |line| && (forall j :: 0 <= j < k ==> line[j] == '#') && line[k] == ' ' {
      var k :| 1 <= k <= 6 && k + 1 < |line| && (forall j :: 0 <= j < k ==> line[j] == '#') && line[k] == ' ';
      assert n == k;
    }
  }

  /** The end of the line starting at `i`: the next newline or the end of the text. */
  function LineEnd(s: string, i: nat): (e: nat)
    requires i <= |s|
    ensures i <= e <= |s|
    ensures e == |s| || s[e] == '\n'
    decreases |s| - i
  {
    if i == |s| || s[i] == '\n' then i else LineEnd(s, i + 1)
  }

  /** A line holds no newline before its end. */
  lemma {:induction false} LineEndFirstNewline(s: string, i: nat, k: nat)
    requires i <= k < |s| && k < LineEnd(s, i)
    ensures s[k] != '\n'
    decreases |s| - i
  {
    if k > i {
      LineEndFirstNewline(s, i + 1, k);
    }
  }

  predicate LineStart(s: string, p: nat) {
    p == 0 || (0 < p <= |s| && s[p - 1] == '\n')
  }

  /** The start offsets of the header lines at or after the line start `i`,
      in document order. */
  function HeaderStarts(s: string, i: nat): seq<nat>
    requires i <= |s|
    decreases |s| - i
  {
    var e := LineEnd(s, i);
    var rest := if e < |s| then HeaderStarts(s, e + 1) else [];
    if IsHeaderLine(s[i..e]) then [i] + rest else rest
  }

  /** The offsets found from line start `i` lie in the text, at or after
      `i`, and each starts a line. */
  predicate LinesFrom(s: string, i: nat, r: seq<nat>) {
    forall j :: 0 <= j < |r| ==> i <= r[j] < |s| && (r[j] == i || s[r[j] - 1] == '\n')
  }

  /** Each offset starts a header line. */
  predicate AllHeaders(s: string, r: seq<nat>) {
    forall j :: 0 <= j < |r| && r[j] <= |s| ==> IsHeaderLine(s[r[j]..LineEnd(s, r[j])])
  }

  /** Each header line ends before the next offset: the offsets strictly
      increase and no two fall on one line. */
  predicate Spaced(s: string, r: seq<nat>) {
    forall j, k :: 0 <= j < k < |r| && r[j] <= |s| ==> LineEnd(s, r[j]) < r[k]
  }

  /** Every offset found starts a header line at or after `i`, in strictly
      increasing order, one per line. */
  lemma {:induction false} HeaderStartsSound(s: string, i: nat)
    requires i <= |s|
    ensures LinesFrom(s, i, HeaderStarts(s, i))
    ensures AllHeaders(s, HeaderStarts(s, i))
    ensures Spaced(s, HeaderStarts(s, i))
    decreases |s| - i
  {
    var e := LineEnd(s, i);
    if e < |s| {
      HeaderStartsSound(s, e + 1);
      SoundStep(s, i, e, HeaderStarts(s, e + 1));
    } else {
      SoundStep(s, i, e, []);
    }
  }

  /** The line at `i` in front of the offsets found after its end `e`. */
  lemma SoundStep(s: string, i: nat, e: nat, rest: seq<nat>)
    requires i <= |s| && e == LineEnd(s, i) && (e < |s| || rest == [])
    requires LinesFrom(s, e + 1, rest) && AllHeaders(s, rest) && Spaced(s, rest)
    requires rest == if e < |s| then HeaderStarts(s, e + 1) else []
    ensures LinesFrom(s, i, HeaderStarts(s, i))
    ensures AllHeaders(s, HeaderStarts(s, i))
    ensures Spaced(s, HeaderStarts(s, i))
  {
    if IsHeaderLine(s[i..e]) {
      assert HeaderStarts(s, i) == [i] + rest;
      LinesCons(s, i, e, rest);
      HeadersCons(s, i, e, rest);
      SpacedCons(s, i, e, rest);
    } else {
      assert HeaderStarts(s, i) == rest;
      LinesSkip(s, i, e, rest);
    }
  }

  /** The steps of `HeaderStartsSound`: putting the line at `i` in front
      of the offsets found after the line's end `e`. */
  lemma LinesCons(s: string, i: nat, e: nat, rest: seq<nat>)
    requires i < e <= |s| && (e < |s| ==> s[e] == '\n') && (e < |s| || rest == [])
    requires LinesFrom(s, e + 1, rest)
    ensures LinesFrom(s, i, [i] + rest)
  {
    var r := [i] + rest;
    forall j | 0 <= j < |r| ensures i <= r[j] < |s| && (r[j] == i || s[r[j] - 1] == '\n') {
      if j > 0 {
        assert r[j] == rest[j - 1];
      }
    }
  }

  lemma LinesSkip(s: string, i: nat, e: nat, rest: seq<nat>)
    requires i <= e <= |s| && (e < |s| ==> s[e] == '\n') && (e < |s| || rest == [])
    requires LinesFrom(s, e + 1, rest)
    ensures LinesFrom(s, i, rest)
  {
  }

  lemma HeadersCons(s: string, i: nat, e: nat, rest: seq<nat>)
    requires i <= |s| && e == LineEnd(s, i) && IsHeaderLine(s[i..e])
    requires AllHeaders(s, rest)
    ensures AllHeaders(s, [i] + rest)
  {
    var r := [i] + rest;
    forall j | 0 <= j < |r| && r[j] <= |s| ensures IsHeaderLine(s[r[j]..LineEnd(s, r[j])]) {
      if j > 0 {
        assert r[j] == rest[j - 1];
      }
    }
  }

  lemma SpacedCons(s: string, i: nat, e: nat, rest: seq<nat>)
    requires i <= |s| && e == LineEnd(s, i)
    requires forall k :: 0 <= k < |rest| ==> e < rest[k]
    requires Spaced(s, rest)
    ensures Spaced(s, [i] + rest)
  {
    var r := [i] + rest;
    forall j, k | 0 <= j < k < |r| && r[j] <= |s| ensures LineEnd(s, r[j]) < r[k] {
      assert r[k] == rest[k - 1];
      if j > 0 {
        assert r[j] == rest[j - 1];
      }
    }
  }

  /** Every header line at or after the line start `i` is found. */
  lemma {:induction false} HeaderStartsComplete(s: string, i: nat, p: nat)
    requires i <= p < |s|
    requires p == i || s[p - 1] == '\n'
    requires IsHeaderLine(s[p..LineEnd(s, p)])
    ensures p in HeaderStarts(s, i)
    decreases |s| - i
  {
    var e := LineEnd(s, i);
    if p != i {
      if p - 1 < e {
        LineEndFirstNewline(s, i, p - 1);
      }
      HeaderStartsComplete(s, e + 1, p);
      HeaderStartsStep(s, i, p);
    } else {
      HeaderStartsStep(s, i, p);
    }
  }

  /** One line of `HeaderStarts`: a header line at `i` is found, and so is
      everything found from the next line on. */
  lemma HeaderStartsStep(s: string, i: nat, p: nat)
    requires i <= |s|
    ensures IsHeaderLine(s[i..LineEnd(s, i)]) ==> i in HeaderStarts(s, i)
    ensures LineEnd(s, i) < |s| && p in HeaderStarts(s, LineEnd(s, i) + 1) ==> p in HeaderStarts(s, i)
  {
  }

  // ---------------------------------------------------------------------
  // split_markdown_by_headers
  // ---------------------------------------------------------------------

  datatype Section = Section(header: string, body: string)

  /** Where section `j` ends: at the next header's start, or at the end. */
  function SectionEnd(s: string, starts: seq<nat>, j: nat): nat
    requires j < |starts|
  {
    if j + 1 < |starts| then starts[j + 1] else |s|
  }

  /** The sections of a document: one per header line, in document order;
      each holds its header line and the stripped text from the header to
      the next header (or the end). Text before the first header is in no
      section. */
  function Sections(s: string): seq<Section> {
    var starts := HeaderStarts(s, 0);
    HeaderStartsSound(s, 0);
    seq(|starts|, j requires 0 <= j < |starts| =>
      Section(s[starts[j]..LineEnd(s, starts[j])], Strip(s[starts[j]..SectionEnd(s, starts, j)])))
  }

  /** Section `j` spans from its header to the next header (or the end). */
  lemma SectionAt(s: string, j: nat)
    ensures |Sections(s)| == |HeaderStarts(s, 0)|
    ensures j < |Sections(s)| ==>
      var starts := HeaderStarts(s, 0);
      && starts[j] <= |s| && starts[j] <= LineEnd(s, starts[j]) <= SectionEnd(s, starts, j) <= |s|
      && Sections(s)[j] == Section(s[starts[j]..LineEnd(s, starts[j])],
                                   Strip(s[starts[j]..SectionEnd(s, starts, j)]))
  {
    HeaderStartsSound(s, 0);
  }

  /** `split_markdown_by_headers`: one section per header match. */
  method SplitMarkdownByHeaders(content: string) returns (sections: seq<Section>)
    ensures sections == Sections(content)
  {
    var matches := HeaderStarts(content, 0);
    ghost var all := Sections(content);
    sections := [];
    for i := 0 to |matches|
      invariant |all| == |matches|
      invariant sections == all[..i]
    {
      SectionAt(content, i);
      var start := matches[i];
      var end := if i + 1 < |matches| then matches[i + 1] else |content|;
      var header := content[start..LineEnd(content, start)];
      var body := Strip(content[start..end]);
      PrefixSnoc(all, i);
      sections := sections + [Section(header, body)];
    }
    WholePrefix(all);
  }

  /** A document with no header line has no section. */
  lemma NoHeaderNoSections(s: string)
    requires forall p :: 0 <= p < |s| && LineStart(s, p) ==> !IsHeaderLine(s[p..LineEnd(s, p)])
    ensures Sections(s) == []
  {
    SectionAt(s, 0);
    if HeaderStarts(s, 0) != [] {
      FirstStart(s);
    }
  }

  /** The first offset found starts a header line of the document. */
  lemma FirstStart(s: string)
    requires HeaderStarts(s, 0) != []
    ensures var p := HeaderStarts(s, 0)[0];
      p < |s| && LineStart(s, p) && IsHeaderLine(s[p..LineEnd(s, p)])
  {
    HeaderStartsSound(s, 0);
  }

  /** Every header line of the document opens a section. */
  lemma EveryHeaderOpensASection(s: string, p: nat)
    requires p < |s| && LineStart(s, p) && IsHeaderLine(s[p..LineEnd(s, p)])
    ensures exists j :: 0 <= j < |Sections(s)| && Sections(s)[j].header == s[p..LineEnd(s, p)]
  {
    HeaderStartsComplete(s, 0, p);
    HeaderStartsSound(s, 0);
    var starts := HeaderStarts(s, 0);
    var j :| 0 <= j < |starts| && starts[j] == p;
    assert Sections(s)[j].header == s[p..LineEnd(s, p)];
  }

  /** Stripping a text that starts with a header line keeps that line, less
      any trailing whitespace of its own, at the front. */
  lemma StripKeepsHeader(header: string, x: string)
    requires IsHeaderLine(header)
    requires |header| <= |x| && x[..|header|] == header
    ensures var h := TrimEnd(header); |h| <= |Strip(x)| && Strip(x)[..|h|] == h
  {
    HashRunMaximal(header);
    assert header[0] == '#' && x[0] == '#';
    assert TrimStart(x) == x;
    var h := TrimEnd(header);
    var r := TrimEnd(x);
    TrimEndDropsSpace(header);
    TrimEndDropsSpace(x);
    assert !IsSpace(header[0]);
    assert |h| > 0;
    assert x[|h| - 1] == header[|h| - 1] == h[|h| - 1];
    assert !IsSpace(x[|h| - 1]);
    assert |h| - 1 < |r|;
  }

  /** Each section's body begins with its header line (without the line's
      trailing whitespace, which the strip removes when the section holds
      nothing else). */
  lemma BodyBeginsWithHeader(s: string, j: nat)
    requires j < |Sections(s)|
    ensures var sec := Sections(s)[j]; var h := TrimEnd(sec.header);
      |h| <= |sec.body| && sec.body[..|h|] == h
  {
    var starts := HeaderStarts(s, 0);
    SectionAt(s, j);
    assert IsHeaderLine(s[starts[j]..LineEnd(s, starts[j])]) by {
      HeaderStartsSound(s, 0);
    }
    HeaderFirst(s, starts[j], LineEnd(s, starts[j]), SectionEnd(s, starts, j));
  }

  /** A stretch of text that starts with a header line keeps the line at
      the front of its stripped form. */
  lemma HeaderFirst(s: string, a: nat, e: nat, end: nat)
    requires a <= e <= end <= |s| && IsHeaderLine(s[a..e])
    ensures var h := TrimEnd(s[a..e]); |h| <= |Strip(s[a..end])| && Strip(s[a..end])[..|h|] == h
  {
    SliceOfSlice(s, a, e, end);
    StripKeepsHeader(s[a..e], s[a..end]);
  }

  lemma ExampleLineEnds(s: string)
    requires s == "x\n# T\nb\n## S\nc"
    ensures |s| == 14 && LineEnd(s, 2) == 5 && LineEnd(s, 8) == 12
  {
    assert s[5] == '\n' && s[4] != '\n' && s[3] != '\n' && s[2] != '\n';
    assert LineEnd(s, 4) == 5;
    assert LineEnd(s, 3) == 5;
    assert s[12] == '\n' && s[11] != '\n' && s[10] != '\n' && s[9] != '\n' && s[8] != '\n';
    assert LineEnd(s, 11) == 12;
    assert LineEnd(s, 10) == 12;
    assert LineEnd(s, 9) == 12;
  }

  /** The header offsets of a small document with text before its first
      header: the lines start at 0, 2, 6, 8 and 13, and only the lines at 2
      and 8 are headers. */
  lemma ExampleStarts(s: string)
    requires s == "x\n# T\nb\n## S\nc"
    ensures HeaderStarts(s, 0) == [2, 8]
  {
    assert s[13] == 'c';
    assert LineEnd(s, 13) == 14;
    assert !IsHeaderLine(s[13..14]);
    assert HeaderStarts(s, 13) == [];
    assert s[8..12] == "## S" && s[12] == '\n';
    assert LineEnd(s, 11) == 12;
    assert LineEnd(s, 9) == 12;
    assert LineEnd(s, 8) == 12;
    assert HashRun(s[8..12][2..]) == 0;
    assert HashRun(s[8..12]) == 2;
    assert HeaderStarts(s, 8) == [8];
    assert s[6] == 'b' && s[7] == '\n';
    assert LineEnd(s, 6) == 7;
    assert HashRun(s[6..7]) == 0;
    assert HeaderStarts(s, 6) == [8];
    assert s[2..5] == "# T" && s[5] == '\n';
    assert LineEnd(s, 4) == 5;
    assert LineEnd(s, 2) == 5;
    assert HashRun(s[2..5][1..]) == 0;
    assert HashRun(s[2..5]) == 1;
    assert HeaderStarts(s, 2) == [2, 8];
    assert s[0] == 'x' && s[1] == '\n';
    assert LineEnd(s, 0) == 1;
    assert HashRun(s[0..1]) == 0;
  }

  /** The headers and stripped bodies of the example's two sections. */
  lemma ExampleTexts(s: string)
    requires s == "x\n# T\nb\n## S\nc"
    ensures s[2..5] == "# T" && Strip(s[2..8]) == "# T\nb"
    ensures s[8..12] == "## S" && Strip(s[8..14]) == "## S\nc"
  {
    ExampleSlices(s);
    FirstBody();
    SecondBody();
  }

  lemma SecondBody()
    ensures Strip("## S\nc") == "## S\nc"
  {
    var body := "## S\nc";
    assert body[0] == '#' && body[|body| - 1] == 'c';
    assert IsStripped(body);
  }

  lemma ExampleSlices(s: string)
    requires s == "x\n# T\nb\n## S\nc"
    ensures s[2..5] == "# T" && s[2..8] == "# T\nb\n"
    ensures s[8..12] == "## S" && s[8..14] == "## S\nc"
  {
  }

  lemma FirstBody()
    ensures Strip("# T\nb\n") == "# T\nb"
  {
    var body := "# T\nb";
    assert IsStripped(body);
    assert body + "\n" == "# T\nb\n";
    StripNewline(body);
  }

  lemma PairOf(r: seq<Section>, a: Section, b: Section)
    requires |r| == 2 && r[0] == a && r[1] == b
    ensures r == [a, b]
  {
  }

  lemma ExampleShape(s: string)
    requires s == "x\n# T\nb\n## S\nc"
    ensures |Sections(s)| == 2
    ensures Sections(s)[0] == Section(s[2..5], Strip(s[2..8]))
    ensures Sections(s)[1] == Section(s[8..12], Strip(s[8..14]))
  {
    ExampleStarts(s);
    ExampleLineEnds(s);
    TwoSections(s);
  }

  /** A document of 14 characters with header lines at 2 and 8, ending at
      5 and 12. */
  lemma TwoSections(s: string)
    requires |s| == 14 && HeaderStarts(s, 0) == [2, 8] && LineEnd(s, 2) == 5 && LineEnd(s, 8) == 12
    ensures |Sections(s)| == 2
    ensures Sections(s)[0] == Section(s[2..5], Strip(s[2..8]))
    ensures Sections(s)[1] == Section(s[8..12], Strip(s[8..14]))
  {
    SectionOf(s, 0, 2, 5, 8);
    SectionOf(s, 1, 8, 12, 14);
  }

  /** Section `j` from its offset `a`, its line end `e` and its end. */
  lemma SectionOf(s: string, j: nat, a: nat, e: nat, end: nat)
    requires j < |HeaderStarts(s, 0)| && HeaderStarts(s, 0)[j] == a && a <= |s| && LineEnd(s, a) == e
    requires SectionEnd(s, HeaderStarts(s, 0), j) == end
    ensures |Sections(s)| == |HeaderStarts(s, 0)|
    ensures a <= e <= end <= |s| && Sections(s)[j] == Section(s[a..e], Strip(s[a..end]))
  {
    SectionAt(s, j);
  }

  /** The document above splits into two sections; its first line belongs
      to neither. */
  lemma SectionsExample(s: string)
    requires s == "x\n# T\nb\n## S\nc"
    ensures Sections(s) == [Section("# T", "# T\nb"), Section("## S", "## S\nc")]
  {
    ExampleShape(s);
    ExampleTexts(s);
    var r := Sections(s);
    var a := Section("# T", "# T\nb");
    var b := Section("## S", "## S\nc");
    PairOf(r, a, b);
  }

  // ---------------------------------------------------------------------
  // markdown_text_split
  // ---------------------------------------------------------------------

  /** The chunks one section contributes: itself when it fits, otherwise
      whatever the library splitter (not part of this model) returns. */
  function SectionChunks(body: string, chunkSize: int, splitter: string -> seq<string>): seq<string> {
    if |body| <= chunkSize then [body] else splitter(body)
  }

  /** The chunks of a list of sections, section by section. */
  function AllChunks(sections: seq<Section>, chunkSize: int, splitter: string -> seq<string>): seq<string>
    decreases |sections|
  {
    if sections == [] then []
    else AllChunks(sections[..|sections| - 1], chunkSize, splitter)
         + SectionChunks(sections[|sections| - 1].body, chunkSize, splitter)
  }

  /** `markdown_text_split`; `splitter` stands for `MarkdownTextSplitter.split_text`. */
  method MarkdownTextSplit(inputText: string, chunkSize: int, splitter: string -> seq<string>)
    returns (allChunks: seq<string>)
    ensures allChunks == AllChunks(Sections(inputText), chunkSize, splitter)
  {
    var sections := SplitMarkdownByHeaders(inputText);
    allChunks := [];
    for i := 0 to |sections|
      invariant allChunks == AllChunks(sections[..i], chunkSize, splitter)
    {
      AllChunksSnoc(sections, i, chunkSize, splitter);
      if |sections[i].body| <= chunkSize {
        allChunks := allChunks + [sections[i].body];
      } else {
        var chunks := splitter(sections[i].body);
        allChunks := allChunks + chunks;
      }
    }
    WholePrefix(sections);
  }

  lemma AllChunksSnoc(sections: seq<Section>, i: nat, chunkSize: int, splitter: string -> seq<string>)
    requires i < |sections|
    ensures AllChunks(sections[..i + 1], chunkSize, splitter)
         == AllChunks(sections[..i], chunkSize, splitter) + SectionChunks(sections[i].body, chunkSize, splitter)
  {
    PrefixSnoc(sections, i);
  }

  function Bodies(sections: seq<Section>): seq<string> {
    seq(|sections|, j requires 0 <= j < |sections| => sections[j].body)
  }

  /** When every section fits, each becomes exactly one chunk, unchanged and
      in section order. */
  lemma {:induction false} FittingSectionsAreChunks(sections: seq<Section>, chunkSize: int,
                                                     splitter: string -> seq<string>)
    requires forall j :: 0 <= j < |sections| ==> |sections[j].body| <= chunkSize
    ensures AllChunks(sections, chunkSize, splitter) == Bodies(sections)
    decreases |sections|
  {
    if sections != [] {
      var p := sections[..|sections| - 1];
      FittingSectionsAreChunks(p, chunkSize, splitter);
      assert Bodies(sections) == Bodies(p) + [sections[|sections| - 1].body];
    }
  }

  /** The chunks of a list of sections are the chunks of its parts, in order. */
  lemma {:induction false} AllChunksAppend(a: seq<Section>, b: seq<Section>, chunkSize: int,
                                           splitter: string -> seq<string>)
    ensures AllChunks(a + b, chunkSize, splitter)
         == AllChunks(a, chunkSize, splitter) + AllChunks(b, chunkSize, splitter)
    decreases |b|
  {
    if b == [] {
      AppendEmpty(a);
    } else {
      var q := b[..|b| - 1];
      InitOfAppend(a, b);
      AllChunksAppend(a, q, chunkSize, splitter);
      ConcatAssoc(AllChunks(a, chunkSize, splitter), AllChunks(q, chunkSize, splitter),
                  SectionChunks(b[|b| - 1].body, chunkSize, splitter));
    }
  }
}
