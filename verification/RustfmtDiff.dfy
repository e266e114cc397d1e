/** The sections of a `rustfmt --check` report: a header naming a file, then the lines of its diff. */
module RustfmtDiff {
  import opened Wrappers
  import opened Text

  datatype Section = Section(path: string, patch: string)

  datatype Parse = Parse(sections: seq<Section>, current: Option<Section>)

  const START := Parse([], None)

  /** The path of a `Diff in <path>:<line number>:` header. */
  function HeaderPath(line: string): Option<string> {
    match StripPrefix(line, "Diff in ")
    case None => None
    case Some(rest) =>
      match StripSuffix(rest, ":")
      case None => None
      case Some(location) =>
        match RSplitOnce(location, ':')
        case None => None
        case Some((path, lineNumber)) => if ParseUsize(lineNumber).Some? then Some(path) else None
  }

  predicate IsBlank(text: string) {
    Trim(text) == ""
  }

  /** A section whose diff is blank is left out. */
  function Closed(p: Parse): seq<Section> {
    if p.current.Some? && !IsBlank(p.current.value.patch) then p.sections + [p.current.value] else p.sections
  }

  function Feed(p: Parse, line: string): Parse {
    match HeaderPath(line)
    case Some(path) => Parse(Closed(p), Some(Section(path, "")))
    case None =>
      if p.current.Some?
      then p.(current := Some(p.current.value.(patch := p.current.value.patch + line + "\n")))
      else p
  }

  function FeedAll(p: Parse, lines: seq<string>): Parse
    decreases |lines|
  {
    if lines == [] then p else FeedAll(Feed(p, lines[0]), lines[1..])
  }

  function Sections(output: string): seq<Section> {
    Closed(FeedAll(START, Lines(output)))
  }

  method RustfmtDiffSections(output: string) returns (sections: seq<Section>)
    ensures sections == Sections(output)
  {
    sections := [];
    var current: Option<Section> := None;
    var lines := Lines(output);
    for i := 0 to |lines|
      invariant FeedAll(Parse(sections, current), lines[i..]) == FeedAll(START, lines)
    {
      var line := lines[i];
      assert lines[i..][0] == line && lines[i..][1..] == lines[i + 1..];
      var path := HeaderPath(line);
      if path.Some? {
        if current.Some? && !IsBlank(current.value.patch) {
          sections := sections + [current.value];
        }
        current := Some(Section(path.value, ""));
      } else if current.Some? {
        current := Some(current.value.(patch := current.value.patch + line + "\n"));
      }
    }
    if current.Some? && !IsBlank(current.value.patch) {
      sections := sections + [current.value];
    }
  }

  // ---------------------------------------------------------------------------------------------
  // Headers

  /** A line is a header for a path exactly when it is spelled as one; the path may contain colons. */
  lemma HeaderExactly(line: string, path: string)
    ensures HeaderPath(line) == Some(path) <==>
              exists number: string :: line == "Diff in " + (path + [':'] + number + ":")
                                       && ':' !in number && ParseUsize(number).Some?
  {
    if HeaderPath(line) == Some(path) {
      HeaderIsSpelled(line, path);
    }
    forall number: string | ':' !in number && ParseUsize(number).Some?
      ensures HeaderPath("Diff in " + (path + [':'] + number + ":")) == Some(path)
    {
      HeaderIsRead(path, number);
    }
  }

  lemma HeaderIsSpelled(line: string, path: string)
    requires HeaderPath(line) == Some(path)
    ensures exists number: string :: line == "Diff in " + (path + [':'] + number + ":")
                                     && ':' !in number && ParseUsize(number).Some?
  {
    var rest := line[|"Diff in "|..];
    var location := rest[..|rest| - 1];
    var number := location[LastIndexAfter(location, ':')..];
    assert line == "Diff in " + rest;
    assert rest == location + ":";
    assert location == path + [':'] + number;
    assert ':' !in number;
  }

  lemma HeaderIsRead(path: string, number: string)
    requires ':' !in number && ParseUsize(number).Some?
    ensures HeaderPath("Diff in " + (path + [':'] + number + ":")) == Some(path)
  {
    var location := path + [':'] + number;
    var rest := location + ":";
    assert ("Diff in " + rest)[|"Diff in "|..] == rest;
    assert rest[|rest| - 1..] == ":" && rest[..|rest| - 1] == location;
    RSplitOnceAt(path, ':', number);
  }

  function Header(path: string, number: nat): string {
    "Diff in " + (path + [':'] + PrintNat(number) + ":")
  }

  lemma PrintedHeader(path: string, number: nat)
    requires number < USIZE_LIMIT
    ensures HeaderPath(Header(path, number)) == Some(path)
  {
    ParseOfPrint(number, USIZE_LIMIT);
    assert ':' !in PrintNat(number);
    HeaderIsRead(path, PrintNat(number));
  }

  // ---------------------------------------------------------------------------------------------
  // Printing and parsing

  /** A file of the report: where its diff starts, and the lines of the diff. */
  datatype FileDiff = FileDiff(path: string, number: nat, body: seq<string>)

  /** A line that survives being printed and split again. */
  predicate IsLine(line: string) {
    '\n' !in line && (line != "" ==> line[|line| - 1] != '\r')
  }

  predicate IsBodyLine(line: string) {
    IsLine(line) && HeaderPath(line).None?
  }

  predicate IsFileDiff(f: FileDiff) {
    && '\n' !in f.path && f.number < USIZE_LIMIT
    && forall line :: line in f.body ==> IsBodyLine(line)
  }

  function Unlines(lines: seq<string>): string {
    if lines == [] then "" else lines[0] + "\n" + Unlines(lines[1..])
  }

  function PrintedLines(files: seq<FileDiff>): seq<string> {
    if files == [] then []
    else [Header(files[0].path, files[0].number)] + files[0].body + PrintedLines(files[1..])
  }

  function Patch(body: seq<string>): string {
    if body == [] then "" else Patch(body[..|body| - 1]) + body[|body| - 1] + "\n"
  }

  /** The sections a report stands for. */
  function Meant(files: seq<FileDiff>): seq<Section> {
    if files == [] then []
    else
      var section := Section(files[0].path, Patch(files[0].body));
      (if IsBlank(section.patch) then [] else [section]) + Meant(files[1..])
  }

  lemma {:induction false} LinesOfUnlines(lines: seq<string>)
    requires forall line :: line in lines ==> IsLine(line)
    ensures Lines(Unlines(lines)) == lines
    decreases |lines|
  {
    if lines != [] {
      var line, rest := lines[0], Unlines(lines[1..]);
      assert line in lines;
      IndexOfFirst(line, '\n', rest);
      var all := line + ['\n'] + rest;
      assert Unlines(lines) == all;
      assert all[..|line|] == line && all[|line| + 1..] == rest;
      LinesOfUnlines(lines[1..]);
    }
  }

  lemma {:induction false} FeedAppend(p: Parse, lines: seq<string>, more: seq<string>)
    ensures FeedAll(p, lines + more) == FeedAll(FeedAll(p, lines), more)
    decreases |lines|
  {
    if lines == [] {
      assert lines + more == more;
    } else {
      assert (lines + more)[1..] == lines[1..] + more;
      FeedAppend(Feed(p, lines[0]), lines[1..], more);
    }
  }

  /** Lines before the first header are ignored. */
  lemma {:induction false} PreambleIgnored(sections: seq<Section>, lines: seq<string>)
    requires forall line :: line in lines ==> HeaderPath(line).None?
    ensures FeedAll(Parse(sections, None), lines) == Parse(sections, None)
    decreases |lines|
  {
    if lines != [] {
      assert lines[0] in lines;
      PreambleIgnored(sections, lines[1..]);
    }
  }

  lemma {:induction false} BodyFed(sections: seq<Section>, path: string, body: seq<string>)
    requires forall line :: line in body ==> HeaderPath(line).None?
    ensures FeedAll(Parse(sections, Some(Section(path, ""))), body) == Parse(sections, Some(Section(path, Patch(body))))
    decreases |body|
  {
    if body != [] {
      var init, last := body[..|body| - 1], body[|body| - 1];
      assert last in body && body == init + [last];
      BodyFed(sections, path, init);
      FeedAppend(Parse(sections, Some(Section(path, ""))), init, [last]);
      assert [last][1..] == [];
    }
  }

  lemma FileFed(p: Parse, f: FileDiff, later: seq<string>)
    requires IsFileDiff(f)
    ensures FeedAll(p, [Header(f.path, f.number)] + (f.body + later))
         == FeedAll(Parse(Closed(p), Some(Section(f.path, Patch(f.body)))), later)
  {
    var lines := [Header(f.path, f.number)] + (f.body + later);
    PrintedHeader(f.path, f.number);
    assert lines[1..] == f.body + later;
    FeedAppend(Parse(Closed(p), Some(Section(f.path, ""))), f.body, later);
    BodyFed(Closed(p), f.path, f.body);
  }

  lemma {:induction false} FilesFed(p: Parse, files: seq<FileDiff>)
    requires forall f :: f in files ==> IsFileDiff(f)
    ensures Closed(FeedAll(p, PrintedLines(files))) == Closed(p) + Meant(files)
    decreases |files|
  {
    if files == [] {
      assert Closed(p) + [] == Closed(p);
    } else {
      var f, rest := files[0], files[1..];
      assert f in files;
      var fed := Parse(Closed(p), Some(Section(f.path, Patch(f.body))));
      AppendAssoc([Header(f.path, f.number)], f.body, PrintedLines(rest));
      FileFed(p, f, PrintedLines(rest));
      FilesFed(fed, rest);
      AppendAssoc(Closed(p), if IsBlank(fed.current.value.patch) then [] else [fed.current.value], Meant(rest));
      assert Closed(fed) == Closed(p) + if IsBlank(fed.current.value.patch) then [] else [fed.current.value];
    }
  }

  lemma HeaderIsLine(path: string, number: nat)
    requires '\n' !in path
    ensures IsLine(Header(path, number))
  {
    var h := Header(path, number);
    assert h[|h| - 1] == ':';
    assert '\n' !in PrintNat(number);
  }

  lemma {:induction false} PrintedLinesAreLines(files: seq<FileDiff>)
    requires forall f :: f in files ==> IsFileDiff(f)
    ensures forall line :: line in PrintedLines(files) ==> IsLine(line)
    decreases |files|
  {
    if files != [] {
      assert files[0] in files;
      HeaderIsLine(files[0].path, files[0].number);
      PrintedLinesAreLines(files[1..]);
    }
  }

  /**
   Parsing a printed report gives back its files and diffs, whatever stands before the first header
   and even when paths contain colons; only files whose diff is blank are left out.
   */
  lemma ParseOfPrintedReport(preamble: seq<string>, files: seq<FileDiff>)
    requires forall line :: line in preamble ==> IsBodyLine(line)
    requires forall f :: f in files ==> IsFileDiff(f)
    ensures Sections(Unlines(preamble + PrintedLines(files))) == Meant(files)
  {
    PrintedLinesAreLines(files);
    LinesOfUnlines(preamble + PrintedLines(files));
    FeedAppend(START, preamble, PrintedLines(files));
    PreambleIgnored([], preamble);
    FilesFed(START, files);
  }

  /** When no diff is blank, every file comes back, in order. */
  lemma {:induction false} NothingLeftOut(files: seq<FileDiff>)
    requires forall f :: f in files ==> !IsBlank(Patch(f.body))
    ensures |Meant(files)| == |files|
    ensures forall i :: 0 <= i < |files| ==> Meant(files)[i] == Section(files[i].path, Patch(files[i].body))
  {
    if files != [] {
      assert files[0] in files;
      NothingLeftOut(files[1..]);
    }
  }
}
