/** Per-file statistics of a unified diff. */
module PatchFiles {
  import opened Wrappers
  import opened Text

  // ---- One line ----

  datatype Line =
    | GitHeader(oldPath: string, newPath: string)
    | OldPath(path: string)
    | NewPath(path: string)
    | HunkHeader
    | Addition
    | Deletion
    | Other

  function TrimQuotesStart(s: string): string {
    if s != [] && s[0] == '"' then TrimQuotesStart(s[1..]) else s
  }

  function TrimQuotesEnd(s: string): string {
    if s != [] && s[|s| - 1] == '"' then TrimQuotesEnd(s[..|s| - 1]) else s
  }

  function NormalizeDiffPath(path: string): string {
    var bare := TrimQuotesEnd(TrimQuotesStart(TrimEnd(TrimStart(path))));
    if "a/" <= bare || "b/" <= bare then bare[2..] else bare
  }

  const GIT_HEADER := "diff --git "

  function ParseDiffGitPaths(line: string): Option<(string, string)> {
    if !(GIT_HEADER <= line) then None
    else
      var (first, rest) := Word(TrimStart(line[|GIT_HEADER|..]));
      var (second, _) := Word(TrimStart(rest));
      if first == "" || second == "" then None
      else Some((NormalizeDiffPath(first), NormalizeDiffPath(second)))
  }

  function Classify(line: string): Line {
    match ParseDiffGitPaths(line)
    case Some((oldPath, newPath)) => GitHeader(oldPath, newPath)
    case None =>
      if "--- " <= line then OldPath(NormalizeDiffPath(line[4..]))
      else if "+++ " <= line then NewPath(NormalizeDiffPath(line[4..]))
      else if "@@" <= line then HunkHeader
      else if "+" <= line && !("+++" <= line) then Addition
      else if "-" <= line && !("---" <= line) then Deletion
      else Other
  }

  // ---- The reference: sections and counts ----

  /** A section is one file: the paths of its header, when it has one, and the
      lines after it. */
  datatype Section = Section(header: Option<(string, string)>, body: seq<Line>)

  function Extend(sections: seq<Section>, line: Line): seq<Section> {
    match line
    case GitHeader(oldPath, newPath) => sections + [Section(Some((oldPath, newPath)), [])]
    case _ =>
      if sections != [] then
        var last := sections[|sections| - 1];
        sections[..|sections| - 1] + [last.(body := last.body + [line])]
      else if line.Other? then []
      else [Section(None, [line])]
  }

  function Sections(lines: seq<Line>): seq<Section> {
    if lines == [] then [] else Extend(Sections(lines[..|lines| - 1]), lines[|lines| - 1])
  }

  function Count(lines: seq<Line>, kind: Line): nat {
    if lines == [] then 0
    else Count(lines[..|lines| - 1], kind) + (if lines[|lines| - 1] == kind then 1 else 0)
  }

  function LastOldPath(lines: seq<Line>): Option<string> {
    if lines == [] then None
    else if lines[|lines| - 1].OldPath? then Some(lines[|lines| - 1].path)
    else LastOldPath(lines[..|lines| - 1])
  }

  function LastNewPath(lines: seq<Line>): Option<string> {
    if lines == [] then None
    else if lines[|lines| - 1].NewPath? then Some(lines[|lines| - 1].path)
    else LastNewPath(lines[..|lines| - 1])
  }

  datatype FileStats = FileStats(
    oldPath: Option<string>,
    newPath: Option<string>,
    additions: nat,
    deletions: nat,
    hunks: nat)

  const NO_STATS := FileStats(None, None, 0, 0, 0)

  datatype PatchFile = PatchFile(path: string, stats: FileStats)

  function Real(path: Option<string>): Option<string> {
    if path == Some("/dev/null") then None else path
  }

  function FileOf(stats: FileStats): PatchFile {
    PatchFile(
      if Real(stats.newPath).Some? then stats.newPath.value else Real(stats.oldPath).GetOr("<unknown>"),
      stats)
  }

  function Or<T>(first: Option<T>, second: Option<T>): Option<T> {
    if first.Some? then first else second
  }

  function StatsOf(section: Section): FileStats {
    FileStats(
      Or(LastOldPath(section.body), if section.header.Some? then Some(section.header.value.0) else None),
      Or(LastNewPath(section.body), if section.header.Some? then Some(section.header.value.1) else None),
      Count(section.body, Addition),
      Count(section.body, Deletion),
      Count(section.body, HunkHeader))
  }

  function FilesOf(sections: seq<Section>): seq<PatchFile> {
    seq(|sections|, i requires 0 <= i < |sections| => FileOf(StatsOf(sections[i])))
  }

  function Classified(lines: seq<string>): seq<Line> {
    seq(|lines|, i requires 0 <= i < |lines| => Classify(lines[i]))
  }

  /** The files a patch reports: one per section, or the path the update named
      when the patch has none. */
  function PatchReport(lines: seq<Line>, explicitPath: Option<string>): seq<PatchFile> {
    if Sections(lines) == [] && explicitPath.Some? then
      [PatchFile(explicitPath.value,
                 FileStats(explicitPath, explicitPath,
                           Count(lines, Addition), Count(lines, Deletion), Count(lines, HunkHeader)))]
    else FilesOf(Sections(lines))
  }

  // ---- The streaming counter ----

  /** What the scan has seen: the finished files and the one it is in. */
  ghost predicate Tracks(sections: seq<Section>, files: seq<PatchFile>, current: Option<FileStats>) {
    if sections == [] then files == [] && current.None?
    else
      && files == FilesOf(sections[..|sections| - 1])
      && current == Some(StatsOf(sections[|sections| - 1]))
  }

  function PushFile(files: seq<PatchFile>, file: Option<FileStats>): seq<PatchFile> {
    match file
    case Some(stats) => files + [FileOf(stats)]
    case None => files
  }

  lemma PushFileFinishes(sections: seq<Section>, files: seq<PatchFile>, current: Option<FileStats>)
    requires Tracks(sections, files, current)
    ensures PushFile(files, current) == FilesOf(sections)
  {
    hide StatsOf, FileOf;
    if sections != [] {
      var n := |sections| - 1;
      assert sections == sections[..n] + [sections[n]];
    }
  }

  /** A header line closes the current file and opens the next. */
  lemma HeaderLine(sections: seq<Section>, files: seq<PatchFile>, current: Option<FileStats>, oldPath: string,
                   newPath: string)
    requires Tracks(sections, files, current)
    ensures Tracks(Extend(sections, GitHeader(oldPath, newPath)), PushFile(files, current),
                   Some(FileStats(Some(oldPath), Some(newPath), 0, 0, 0)))
  {
    PushFileFinishes(sections, files, current);
    assert Extend(sections, GitHeader(oldPath, newPath))[..|sections|] == sections;
  }

  /** Any other line updates the current file only. */
  function Advance(current: Option<FileStats>, line: Line): Option<FileStats> {
    var stats := current.GetOr(NO_STATS);
    match line
    case OldPath(path) => Some(stats.(oldPath := Some(path)))
    case NewPath(path) => Some(stats.(newPath := Some(path)))
    case HunkHeader => Some(stats.(hunks := stats.hunks + 1))
    case Addition => Some(stats.(additions := stats.additions + 1))
    case Deletion => Some(stats.(deletions := stats.deletions + 1))
    case _ => current
  }

  lemma StatsAdvance(section: Section, line: Line)
    requires !line.GitHeader?
    ensures Some(StatsOf(section.(body := section.body + [line]))) == Advance(Some(StatsOf(section)), line)
  {
    assert (section.body + [line])[..|section.body|] == section.body;
  }

  lemma BodyLine(sections: seq<Section>, files: seq<PatchFile>, current: Option<FileStats>, line: Line)
    requires Tracks(sections, files, current) && !line.GitHeader?
    ensures Tracks(Extend(sections, line), files, Advance(current, line))
  {
    if sections != [] {
      LaterLine(sections, files, line);
    } else if !line.Other? {
      FirstLine(line);
    }
  }

  lemma LaterLine(sections: seq<Section>, files: seq<PatchFile>, line: Line)
    requires sections != [] && !line.GitHeader?
    requires files == FilesOf(sections[..|sections| - 1])
    ensures Tracks(Extend(sections, line), files, Advance(Some(StatsOf(sections[|sections| - 1])), line))
  {
    hide StatsOf, FilesOf, Advance;
    StatsAdvance(sections[|sections| - 1], line);
    assert Extend(sections, line)[..|sections| - 1] == sections[..|sections| - 1];
  }

  lemma FirstLine(line: Line)
    requires !line.GitHeader? && !line.Other?
    ensures Tracks([Section(None, [line])], [], Advance(None, line))
  {
    hide FilesOf;
    StatsAdvance(Section(None, []), line);
    assert [] + [line] == [line];
    assert StatsOf(Section(None, [])) == NO_STATS;
    NoFiles();
    assert [Section(None, [line])][..0] == [];
  }

  lemma NoFiles()
    ensures FilesOf([]) == []
  {
  }

  lemma NextLine(lines: seq<Line>, i: nat)
    requires i < |lines|
    ensures Sections(lines[..i + 1]) == Extend(Sections(lines[..i]), lines[i])
    ensures forall kind :: Count(lines[..i + 1], kind) == Count(lines[..i], kind) + (if lines[i] == kind then 1 else 0)
  {
    assert lines[..i + 1][..i] == lines[..i];
  }

  method AcpPatchFiles(patch: string, explicitPath: Option<string>)
    returns (files: seq<PatchFile>, additions: nat, deletions: nat, hunks: nat)
    ensures var lines := Classified(Lines(patch));
            && files == PatchReport(lines, explicitPath)
            && additions == Count(lines, Addition)
            && deletions == Count(lines, Deletion)
            && hunks == Count(lines, HunkHeader)
  {
    hide Classify, StatsOf, FileOf, Lines, Sections, Count, Extend, Tracks;
    var text := Lines(patch);
    ghost var lines := Classified(text);
    var current: Option<FileStats> := None;
    files, additions, deletions, hunks := [], 0, 0, 0;
    NothingYet(lines);
    for i := 0 to |text|
      invariant Tracks(Sections(lines[..i]), files, current)
      invariant additions == Count(lines[..i], Addition)
      invariant deletions == Count(lines[..i], Deletion)
      invariant hunks == Count(lines[..i], HunkHeader)
    {
      var line := Classify(text[i]);
      NextLine(lines, i);
      if line.GitHeader? {
        HeaderLine(Sections(lines[..i]), files, current, line.oldPath, line.newPath);
      } else {
        BodyLine(Sections(lines[..i]), files, current, line);
      }
      var stats := current.GetOr(NO_STATS);
      match line {
        case GitHeader(oldPath, newPath) =>
          files := PushFile(files, current);
          current := Some(FileStats(Some(oldPath), Some(newPath), 0, 0, 0));
        case OldPath(path) => current := Some(stats.(oldPath := Some(path)));
        case NewPath(path) => current := Some(stats.(newPath := Some(path)));
        case HunkHeader =>
          current := Some(stats.(hunks := stats.hunks + 1));
          hunks := hunks + 1;
        case Addition =>
          current := Some(stats.(additions := stats.additions + 1));
          additions := additions + 1;
        case Deletion =>
          current := Some(stats.(deletions := stats.deletions + 1));
          deletions := deletions + 1;
        case Other =>
      }
    }
    assert lines[..|text|] == lines;
    PushFileFinishes(Sections(lines), files, current);
    files := PushFile(files, current);
    if files == [] && explicitPath.Some? {
      files := [PatchFile(explicitPath.value, FileStats(explicitPath, explicitPath, additions, deletions, hunks))];
    }
  }

  lemma NothingYet(lines: seq<Line>)
    ensures Tracks(Sections(lines[..0]), [], None)
    ensures forall kind :: Count(lines[..0], kind) == 0
  {
  }

  // ---- Conservation ----

  /** Lines outside every section are neither changes nor hunks. */
  lemma {:induction false} NoSectionNoCount(lines: seq<Line>, kind: Line)
    requires Sections(lines) == [] && !kind.Other?
    ensures Count(lines, kind) == 0
  {
    if lines != [] {
      var front, last := lines[..|lines| - 1], lines[|lines| - 1];
      assert Extend(Sections(front), last) == [];
      assert Sections(front) == [] && last.Other?;
      NoSectionNoCount(front, kind);
    }
  }

  function Tally(sections: seq<Section>, kind: Line): nat {
    if sections == [] then 0
    else Tally(sections[..|sections| - 1], kind) + Count(sections[|sections| - 1].body, kind)
  }

  lemma TallySnoc(sections: seq<Section>, last: Section, kind: Line)
    ensures Tally(sections + [last], kind) == Tally(sections, kind) + Count(last.body, kind)
  {
    assert (sections + [last])[..|sections|] == sections;
  }

  lemma CountSnoc(lines: seq<Line>, last: Line, kind: Line)
    ensures Count(lines + [last], kind) == Count(lines, kind) + (if last == kind then 1 else 0)
    ensures Count([], kind) == 0
  {
    assert (lines + [last])[..|lines|] == lines;
  }

  lemma ExtendTally(sections: seq<Section>, line: Line, kind: Line)
    requires !kind.Other? && !kind.GitHeader?
    ensures Tally(Extend(sections, line), kind) == Tally(sections, kind) + (if line == kind then 1 else 0)
  {
    hide Count, Tally;
    CountSnoc([], line, kind);
    assert [] + [line] == [line];
    if line.GitHeader? {
      TallySnoc(sections, Section(Some((line.oldPath, line.newPath)), []), kind);
    } else if sections != [] {
      var front, last := sections[..|sections| - 1], sections[|sections| - 1];
      assert sections == front + [last];
      CountSnoc(last.body, line, kind);
      TallySnoc(front, last, kind);
      TallySnoc(front, last.(body := last.body + [line]), kind);
    } else if !line.Other? {
      assert [] + [Section(None, [line])] == [Section(None, [line])];
      TallySnoc([], Section(None, [line]), kind);
    }
  }

  lemma {:induction false} SectionsConserve(lines: seq<Line>, kind: Line)
    requires !kind.Other? && !kind.GitHeader?
    ensures Tally(Sections(lines), kind) == Count(lines, kind)
  {
    if lines != [] {
      SectionsConserve(lines[..|lines| - 1], kind);
      ExtendTally(Sections(lines[..|lines| - 1]), lines[|lines| - 1], kind);
    }
  }

  function Sum(files: seq<PatchFile>): (int, int, int) {
    if files == [] then (0, 0, 0)
    else
      var (additions, deletions, hunks) := Sum(files[..|files| - 1]);
      var stats := files[|files| - 1].stats;
      (additions + stats.additions, deletions + stats.deletions, hunks + stats.hunks)
  }

  lemma {:induction false} SumIsTally(sections: seq<Section>)
    ensures Sum(FilesOf(sections)) ==
            (Tally(sections, Addition), Tally(sections, Deletion), Tally(sections, HunkHeader))
  {
    if sections != [] {
      SumIsTally(sections[..|sections| - 1]);
      assert FilesOf(sections)[..|sections| - 1] == FilesOf(sections[..|sections| - 1]);
    }
  }

  /** For every patch text and every fallback path, the per-file counts add up
      to the totals; a fallback file is reported only when all are zero. */
  lemma CountsAreConserved(lines: seq<Line>, explicitPath: Option<string>)
    ensures Sum(PatchReport(lines, explicitPath)) ==
            (Count(lines, Addition), Count(lines, Deletion), Count(lines, HunkHeader))
    ensures Sections(lines) == [] ==>
              Count(lines, Addition) == Count(lines, Deletion) == Count(lines, HunkHeader) == 0
  {
    if Sections(lines) == [] {
      NoSectionNoCount(lines, Addition);
      NoSectionNoCount(lines, Deletion);
      NoSectionNoCount(lines, HunkHeader);
      assert Sum(PatchReport(lines, explicitPath)) == (0, 0, 0);
    } else {
      SectionsConserve(lines, Addition);
      SectionsConserve(lines, Deletion);
      SectionsConserve(lines, HunkHeader);
      SumIsTally(Sections(lines));
    }
  }

  // ---- Counting a diff that was printed from known changes ----

  datatype Change = Add(text: string) | Delete(text: string) | Keep(text: string)

  datatype Hunk = Hunk(range: string, changes: seq<Change>)

  datatype FileDiff = FileDiff(oldPath: string, newPath: string, created: bool, deleted: bool, hunks: seq<Hunk>)

  function PrintChange(change: Change): string {
    match change
    case Add(text) => "+" + text
    case Delete(text) => "-" + text
    case Keep(text) => " " + text
  }

  function PrintChanges(changes: seq<Change>): seq<string> {
    seq(|changes|, i requires 0 <= i < |changes| => PrintChange(changes[i]))
  }

  function PrintHunks(hunks: seq<Hunk>): seq<string> {
    if hunks == [] then []
    else PrintHunks(hunks[..|hunks| - 1]) + ["@@" + hunks[|hunks| - 1].range] + PrintChanges(hunks[|hunks| - 1].changes)
  }

  function PrintHeader(file: FileDiff): string {
    GIT_HEADER + "a/" + file.oldPath + " b/" + file.newPath
  }

  /** What stands for a file that was not there before, or is not any more. */
  const NO_FILE := "/dev/null"

  function PrintOldPath(file: FileDiff): string {
    "--- " + if file.created then NO_FILE else "a/" + file.oldPath
  }

  function PrintNewPath(file: FileDiff): string {
    "+++ " + if file.deleted then NO_FILE else "b/" + file.newPath
  }

  /** A rename or a change of mode has no hunks and no path lines. */
  function PrintPaths(file: FileDiff): seq<string> {
    if file.hunks == [] then [] else [PrintOldPath(file), PrintNewPath(file)]
  }

  function PrintFile(file: FileDiff): seq<string> {
    [PrintHeader(file)] + (PrintPaths(file) + PrintHunks(file.hunks))
  }

  function PrintDiff(files: seq<FileDiff>): seq<string> {
    if files == [] then [] else PrintDiff(files[..|files| - 1]) + PrintFile(files[|files| - 1])
  }

  function AllChanges(hunks: seq<Hunk>): seq<Change> {
    if hunks == [] then [] else AllChanges(hunks[..|hunks| - 1]) + hunks[|hunks| - 1].changes
  }

  predicate Made(change: Change, kind: Line) {
    (kind.Addition? && change.Add?) || (kind.Deletion? && change.Delete?)
  }

  /** A change whose text starts with two more signs prints as a path line. */
  predicate Disguised(change: Change, kind: Line) {
    Made(change, kind) && (if kind.Addition? then "++" else "--") <= change.text
  }

  function CountMade(changes: seq<Change>, kind: Line): nat {
    if changes == [] then 0
    else CountMade(changes[..|changes| - 1], kind) + (if Made(changes[|changes| - 1], kind) then 1 else 0)
  }

  function CountDisguised(changes: seq<Change>, kind: Line): nat {
    if changes == [] then 0
    else CountDisguised(changes[..|changes| - 1], kind) + (if Disguised(changes[|changes| - 1], kind) then 1 else 0)
  }

  lemma {:induction false} CountsConcat(a: seq<Change>, b: seq<Change>, kind: Line)
    ensures CountMade(a + b, kind) == CountMade(a, kind) + CountMade(b, kind)
    ensures CountDisguised(a + b, kind) == CountDisguised(a, kind) + CountDisguised(b, kind)
  {
    if b == [] {
      assert a + b == a;
    } else {
      assert (a + b)[..|a + b| - 1] == a + b[..|b| - 1];
      CountsConcat(a, b[..|b| - 1], kind);
    }
  }

  lemma {:induction false} NoneDisguised(changes: seq<Change>, kind: Line)
    ensures CountDisguised(changes, kind) == 0 <==> forall i | 0 <= i < |changes| :: !Disguised(changes[i], kind)
  {
    if changes != [] {
      NoneDisguised(changes[..|changes| - 1], kind);
    }
  }

  lemma ChangeClass(change: Change)
    ensures Classify(PrintChange(change)) == Addition <==> Made(change, Addition) && !Disguised(change, Addition)
    ensures Classify(PrintChange(change)) == Deletion <==> Made(change, Deletion) && !Disguised(change, Deletion)
    ensures !Classify(PrintChange(change)).GitHeader? && !Classify(PrintChange(change)).HunkHeader?
  {
    var line, text := PrintChange(change), change.text;
    assert line[0] != 'd' && line[1..] == text;
    assert !(GIT_HEADER <= line);
    assert "+++" <= line <==> line[0] == '+' && "++" <= text;
    assert "---" <= line <==> line[0] == '-' && "--" <= text;
  }

  predicate NoHeader(lines: seq<Line>) {
    forall i | 0 <= i < |lines| :: !lines[i].GitHeader?
  }

  lemma {:induction false} CountConcat(a: seq<Line>, b: seq<Line>, kind: Line)
    ensures Count(a + b, kind) == Count(a, kind) + Count(b, kind)
  {
    if b == [] {
      assert a + b == a;
    } else {
      assert (a + b)[..|a + b| - 1] == a + b[..|b| - 1];
      CountConcat(a, b[..|b| - 1], kind);
    }
  }

  lemma {:induction false} PrintedChanges(changes: seq<Change>, kind: Line)
    requires kind.Addition? || kind.Deletion? || kind.HunkHeader?
    ensures var lines := Classified(PrintChanges(changes));
            && NoHeader(lines)
            && Count(lines, kind) ==
               if kind.HunkHeader? then 0 else CountMade(changes, kind) - CountDisguised(changes, kind)
  {
    hide Classify, PrintChange;
    if changes != [] {
      var front, last := changes[..|changes| - 1], changes[|changes| - 1];
      var lines := Classified(PrintChanges(changes));
      PrintedChanges(front, kind);
      ChangeClass(last);
      assert lines[..|lines| - 1] == Classified(PrintChanges(front));
      assert lines[|lines| - 1] == Classify(PrintChange(last));
      assert forall i | 0 <= i < |front| :: lines[i] == lines[..|lines| - 1][i];
    }
  }

  lemma {:induction false} PrintedHunks(hunks: seq<Hunk>, kind: Line)
    requires kind.Addition? || kind.Deletion? || kind.HunkHeader?
    ensures var lines, changes := Classified(PrintHunks(hunks)), AllChanges(hunks);
            && NoHeader(lines)
            && Count(lines, kind) ==
               if kind.HunkHeader? then |hunks| else CountMade(changes, kind) - CountDisguised(changes, kind)
  {
    hide Classified, PrintChanges, NoHeader;
    if hunks == [] {
      NoneCounted(kind);
    } else {
      var front, last := hunks[..|hunks| - 1], hunks[|hunks| - 1];
      PrintedHunks(front, kind);
      PrintedChanges(last.changes, kind);
      ClassifiedHunks(hunks);
      CountsConcat(AllChanges(front), last.changes, kind);
      HunkCounts(Classified(PrintHunks(front)), Classified(PrintChanges(last.changes)), kind);
      hide PrintHunks, Count, CountMade, CountDisguised;
    }
  }

  lemma NoneCounted(kind: Line)
    ensures Classified([]) == [] && NoHeader([]) && Count([], kind) == 0
  {
  }

  lemma ClassifiedHunks(hunks: seq<Hunk>)
    requires hunks != []
    ensures var front, last := hunks[..|hunks| - 1], hunks[|hunks| - 1];
            Classified(PrintHunks(hunks)) ==
            Classified(PrintHunks(front)) + [HunkHeader] + Classified(PrintChanges(last.changes))
  {
    hide Classify, PrintChanges;
    var front, last := hunks[..|hunks| - 1], hunks[|hunks| - 1];
    var before, header, after := PrintHunks(front), ["@@" + last.range], PrintChanges(last.changes);
    HunkHeaderClass(last.range);
    assert PrintHunks(hunks) == before + header + after;
    hide PrintHunks;
    ClassifiedConcat(before + header, after);
    ClassifiedConcat(before, header);
    assert Classified(header) == [HunkHeader];
  }

  lemma HunkHeaderClass(range: string)
    ensures Classify("@@" + range) == HunkHeader
  {
    assert ("@@" + range)[0] == '@';
  }

  lemma HunkCounts(before: seq<Line>, after: seq<Line>, kind: Line)
    ensures Count(before + [HunkHeader] + after, kind) ==
            Count(before, kind) + (if kind.HunkHeader? then 1 else 0) + Count(after, kind)
    ensures NoHeader(before) && NoHeader(after) ==> NoHeader(before + [HunkHeader] + after)
  {
    CountConcat(before + [HunkHeader], after, kind);
    CountConcat(before, [HunkHeader], kind);
    assert [HunkHeader][..0] == [];
  }

  // The printed header names two paths, whatever they are.

  lemma {:induction false} WordStops(s: string)
    ensures Word(s).0 + Word(s).1 == s
    ensures Word(s).1 != [] ==> IsWhitespace(Word(s).1[0])
    ensures s != [] && !IsWhitespace(s[0]) ==> Word(s).0 != ""
  {
    if s != [] && !IsWhitespace(s[0]) {
      WordStops(s[1..]);
    }
  }

  lemma {:induction false} TrimStartFindsWord(s: string, i: nat)
    requires i < |s| && !IsWhitespace(s[i])
    ensures Word(TrimStart(s)).0 != ""
  {
    if IsWhitespace(s[0]) {
      TrimStartFindsWord(s[1..], i - 1);
    } else {
      WordStops(s);
    }
  }

  lemma {:induction false} WordLeavesRest(s: string, i: nat)
    requires i < |s| && IsWhitespace(s[i])
    ensures |Word(s).0| <= i
  {
    if !IsWhitespace(s[0]) {
      WordLeavesRest(s[1..], i - 1);
    }
  }

  lemma GitHeaderClass(file: FileDiff)
    ensures Classify(PrintHeader(file)).GitHeader?
  {
    var oldPath, newPath := file.oldPath, file.newPath;
    var paths := "a/" + oldPath + " b/" + newPath;
    var line := PrintHeader(file);
    assert line == GIT_HEADER + paths;
    assert line[|GIT_HEADER|..] == paths;
    var gap := 2 + |oldPath|;
    assert paths[gap] == ' ' && paths[gap + 1] == 'b';
    assert TrimStart(paths) == paths;
    WordStops(paths);
    WordLeavesRest(paths, gap);
    var (first, rest) := Word(paths);
    assert rest[gap + 1 - |first|] == (first + rest)[gap + 1] == 'b';
    TrimStartFindsWord(rest, gap + 1 - |first|);
  }

  lemma {:induction false} SectionOfFile(before: seq<Line>, header: Line, body: seq<Line>)
    requires header.GitHeader? && NoHeader(body)
    ensures Sections(before + [header] + body) ==
            Sections(before) + [Section(Some((header.oldPath, header.newPath)), body)]
  {
    var all := before + [header] + body;
    if body == [] {
      assert all == before + [header] && all[..|all| - 1] == before;
    } else {
      var front, last := body[..|body| - 1], body[|body| - 1];
      SectionOfFile(before, header, front);
      assert all[..|all| - 1] == before + [header] + front;
      assert body == front + [last];
      var sections := Sections(before) + [Section(Some((header.oldPath, header.newPath)), front)];
      assert sections[..|sections| - 1] == Sections(before);
    }
  }

  function PrintedBody(file: FileDiff): seq<Line> {
    Classified(PrintPaths(file) + PrintHunks(file.hunks))
  }

  lemma ClassifiedConcat(a: seq<string>, b: seq<string>)
    ensures Classified(a + b) == Classified(a) + Classified(b)
  {
    hide Classify;
  }

  lemma PrintedFile(file: FileDiff, kind: Line)
    requires kind.Addition? || kind.Deletion? || kind.HunkHeader?
    ensures NoHeader(PrintedBody(file))
    ensures Count(PrintedBody(file), kind) ==
            if kind.HunkHeader? then |file.hunks|
            else CountMade(AllChanges(file.hunks), kind) - CountDisguised(AllChanges(file.hunks), kind)
  {
    hide Classified, PrintPaths, PrintHunks, AllChanges, CountMade, CountDisguised, Count;
    PrintedHunks(file.hunks, kind);
    PrintedPaths(file, kind);
    ClassifiedConcat(PrintPaths(file), PrintHunks(file.hunks));
    CountConcat(Classified(PrintPaths(file)), Classified(PrintHunks(file.hunks)), kind);
  }

  lemma PrintedPaths(file: FileDiff, kind: Line)
    requires kind.Addition? || kind.Deletion? || kind.HunkHeader?
    ensures var lines := Classified(PrintPaths(file));
            NoHeader(lines) && Count(lines, kind) == 0
  {
    hide Classify, PrintOldPath, PrintNewPath;
    NoneCounted(kind);
    var first, second := PrintOldPath(file), PrintNewPath(file);
    OpensPathLine(file);
    PathLineClass(first, second);
    assert Classified([first, second]) == [Classify(first), Classify(second)];
    hide Classified;
    CountNeither(Classify(first), Classify(second), kind);
  }

  lemma OpensPathLine(file: FileDiff)
    ensures "--- " <= PrintOldPath(file) && "+++ " <= PrintNewPath(file)
  {
  }

  lemma PathLineClass(first: string, second: string)
    requires "--- " <= first && "+++ " <= second
    ensures Classify(first).OldPath? && Classify(second).NewPath?
  {
    assert first[0] == '-' && second[0] == '+';
  }

  lemma CountNeither(first: Line, second: Line, kind: Line)
    requires first != kind && second != kind
    ensures Count([first, second], kind) == 0
  {
    var both := [first, second];
    assert both[..1] == [first];
    assert [first][..0] == [];
    assert Count([first], kind) == 0;
  }

  function PrintedSection(file: FileDiff): Section {
    var header := Classify(PrintHeader(file));
    Section(if header.GitHeader? then Some((header.oldPath, header.newPath)) else None, PrintedBody(file))
  }

  lemma {:induction false} PrintedSections(files: seq<FileDiff>)
    ensures var sections := Sections(Classified(PrintDiff(files)));
            |sections| == |files| && forall i | 0 <= i < |files| :: sections[i] == PrintedSection(files[i])
  {
    hide Sections, Classify, NoHeader, PrintFile, PrintHeader, PrintedBody, Classified;
    if files == [] {
      NoSections();
    } else {
      var front, last := files[..|files| - 1], files[|files| - 1];
      PrintedSections(front);
      PrintedFile(last, Addition);
      GitHeaderClass(last);
      PrintedFileSection(PrintDiff(front), last);
    }
  }

  lemma NoSections()
    ensures Sections(Classified([])) == []
  {
  }

  lemma PrintedFileSection(before: seq<string>, file: FileDiff)
    requires NoHeader(PrintedBody(file)) && Classify(PrintHeader(file)).GitHeader?
    ensures var header := Classify(PrintHeader(file));
            Sections(Classified(before + PrintFile(file))) ==
            Sections(Classified(before)) + [Section(Some((header.oldPath, header.newPath)), PrintedBody(file))]
  {
    hide Classify, PrintHeader, PrintPaths, PrintHunks, Sections, NoHeader;
    var header := Classify(PrintHeader(file));
    SectionOfFile(Classified(before), header, PrintedBody(file));
    ClassifiedConcat(before, PrintFile(file));
    ClassifiedConcat([PrintHeader(file)], PrintPaths(file) + PrintHunks(file.hunks));
    assert Classified([PrintHeader(file)]) == [header];
    assert Classified(before) + ([header] + PrintedBody(file)) == Classified(before) + [header] + PrintedBody(file);
  }

  /** Counting a printed diff: one report per file with its true hunk count,
      and with its true number of additions and deletions exactly when no
      added text starts with `++` and no deleted text with `--`. */
  lemma PrintedDiffCounts(files: seq<FileDiff>, explicitPath: Option<string>, i: nat, kind: Line)
    requires i < |files| && (kind.Addition? || kind.Deletion?)
    ensures var report := PatchReport(Classified(PrintDiff(files)), explicitPath);
            && |report| == |files|
            && report[i].stats.hunks == |files[i].hunks|
            && var changes := AllChanges(files[i].hunks);
               var reported := if kind.Addition? then report[i].stats.additions else report[i].stats.deletions;
               && reported == CountMade(changes, kind) - CountDisguised(changes, kind)
               && (reported == CountMade(changes, kind) <==>
                   forall j | 0 <= j < |changes| :: !Disguised(changes[j], kind))
  {
    hide Sections, Classified, PrintDiff, PrintHeader, PrintedBody, Count, CountMade, CountDisguised, AllChanges;
    hide Disguised;
    PrintedSections(files);
    PrintedFile(files[i], kind);
    PrintedFile(files[i], HunkHeader);
    NoneDisguised(AllChanges(files[i].hunks), kind);
  }

  // ---- Line ends ----

  lemma {:induction false} TrimStartBeforeReturn(s: string)
    ensures TrimStart(s + "\r") == if TrimStart(s) == "" then "" else TrimStart(s) + "\r"
  {
    if s == "" {
      assert "" + "\r" == "\r" && "\r"[1..] == "";
    } else if IsWhitespace(s[0]) {
      assert (s + "\r")[1..] == s[1..] + "\r";
      TrimStartBeforeReturn(s[1..]);
    }
  }

  lemma {:induction false} WordBeforeReturn(s: string)
    ensures Word(s + "\r") == (Word(s).0, Word(s).1 + "\r")
  {
    if s != "" && !IsWhitespace(s[0]) {
      assert (s + "\r")[1..] == s[1..] + "\r";
      WordBeforeReturn(s[1..]);
    }
  }

  lemma PathBeforeReturn(path: string)
    ensures NormalizeDiffPath(path + "\r") == NormalizeDiffPath(path)
  {
    TrimStartBeforeReturn(path);
    var trimmed := TrimStart(path) + "\r";
    assert trimmed[..|trimmed| - 1] == TrimStart(path);
  }

  lemma HeaderBeforeReturn(line: string)
    ensures ParseDiffGitPaths(line + "\r") == ParseDiffGitPaths(line)
  {
    hide TrimStart, Word, NormalizeDiffPath;
    var n := |GIT_HEADER|;
    if GIT_HEADER <= line {
      assert (line + "\r")[n..] == line[n..] + "\r";
      WordsBeforeReturn(line[n..]);
    } else {
      assert GIT_HEADER[n - 1] == ' ';
      assert !(GIT_HEADER <= line + "\r");
    }
  }

  lemma WordsBeforeReturn(s: string)
    ensures var (first, rest) := Word(TrimStart(s));
            var (first', rest') := Word(TrimStart(s + "\r"));
            first' == first && Word(TrimStart(rest')).0 == Word(TrimStart(rest)).0
  {
    hide TrimStart, Word;
    TrimStartBeforeReturn(s);
    WordBeforeReturn(TrimStart(s));
    var (_, rest) := Word(TrimStart(s));
    TrimStartBeforeReturn(rest);
    WordBeforeReturn(TrimStart(rest));
    TrimNothing();
  }

  lemma TrimNothing()
    ensures TrimStart("") == "" && Word("") == ("", "")
  {
  }

  /** A carriage return at the end of a line changes nothing about it. */
  lemma ReturnKeepsClass(line: string)
    ensures Classify(line + "\r") == Classify(line)
  {
    hide ParseDiffGitPaths, NormalizeDiffPath;
    HeaderBeforeReturn(line);
    PrefixBeforeReturn(line, "--- ");
    PrefixBeforeReturn(line, "+++ ");
    PrefixBeforeReturn(line, "@@");
    PrefixBeforeReturn(line, "+");
    PrefixBeforeReturn(line, "-");
    PrefixBeforeReturn(line, "+++");
    PrefixBeforeReturn(line, "---");
    if |line| >= 4 {
      assert (line + "\r")[4..] == line[4..] + "\r";
      PathBeforeReturn(line[4..]);
    }
  }

  lemma PrefixBeforeReturn(line: string, prefix: string)
    requires prefix != "" && prefix[|prefix| - 1] != '\r'
    ensures prefix <= line + "\r" <==> prefix <= line
  {
    if prefix <= line + "\r" {
      assert (line + "\r")[|prefix| - 1] == prefix[|prefix| - 1];
    }
  }

  lemma StrippedKeepsClass(line: string)
    ensures Classify(StripCarriageReturn(line)) == Classify(line)
  {
    hide Classify;
    if line != [] && line[|line| - 1] == '\r' {
      assert line == line[..|line| - 1] + "\r";
      ReturnKeepsClass(line[..|line| - 1]);
    }
  }

  lemma PrintedTextLines(lines: seq<string>)
    requires forall line | line in lines :: '\n' !in line
    ensures Classified(Lines(Unlines(lines))) == Classified(lines)
  {
    hide Lines, Unlines, Classify;
    LinesOfText(lines);
    var stripped := Lines(Unlines(lines));
    forall k | 0 <= k < |lines|
      ensures Classify(stripped[k]) == Classify(lines[k])
    {
      StrippedKeepsClass(lines[k]);
    }
  }

  /** The same for the text of the patch, whatever its line ends, if each
      printed line is one line. */
  lemma PrintedPatchCounts(files: seq<FileDiff>, explicitPath: Option<string>, i: nat, kind: Line)
    requires i < |files| && (kind.Addition? || kind.Deletion?)
    requires forall line | line in PrintDiff(files) :: '\n' !in line
    ensures var report := PatchReport(Classified(Lines(Unlines(PrintDiff(files)))), explicitPath);
            && |report| == |files|
            && report[i].stats.hunks == |files[i].hunks|
            && var changes := AllChanges(files[i].hunks);
               var reported := if kind.Addition? then report[i].stats.additions else report[i].stats.deletions;
               && reported == CountMade(changes, kind) - CountDisguised(changes, kind)
               && (reported == CountMade(changes, kind) <==>
                   forall j | 0 <= j < |changes| :: !Disguised(changes[j], kind))
  {
    hide PatchReport, PrintDiff, Lines, Unlines, Classify;
    PrintedTextLines(PrintDiff(files));
    PrintedDiffCounts(files, explicitPath, i, kind);
  }

  // ---- Which file a printed section is reported as ----

  lemma {:induction false} TrimEndKeeps(s: string, n: nat)
    requires n <= |s| && (n > 0 ==> !IsWhitespace(s[n - 1]))
    ensures s[..n] <= TrimEnd(s) <= s
    ensures TrimEnd(s) == s <==> s == "" || !IsWhitespace(s[|s| - 1])
  {
    if s != "" && IsWhitespace(s[|s| - 1]) {
      assert s[..|s| - 1][..n] == s[..n];
      TrimEndKeeps(s[..|s| - 1], n);
    }
  }

  lemma {:induction false} TrimQuotesEndKeeps(s: string, n: nat)
    requires n <= |s| && (n > 0 ==> s[n - 1] != '"')
    ensures s[..n] <= TrimQuotesEnd(s) <= s
    ensures TrimQuotesEnd(s) == s <==> s == "" || s[|s| - 1] != '"'
  {
    if s != "" && s[|s| - 1] == '"' {
      assert s[..|s| - 1][..n] == s[..n];
      TrimQuotesEndKeeps(s[..|s| - 1], n);
    }
  }

  /** Ends in neither whitespace nor a quote. */
  predicate EndsPlain(path: string) {
    path == "" || (!IsWhitespace(path[|path| - 1]) && path[|path| - 1] != '"')
  }

  /** A path comes back from its line exactly if it ends plain. */
  lemma PathComesBack(path: string, side: string)
    requires side == "a/" || side == "b/"
    ensures NormalizeDiffPath(side + path) == path <==> EndsPlain(path)
    ensures NormalizeDiffPath("/dev/null") == "/dev/null"
  {
    var line := side + path;
    SideKept(path, side);
    TrimEndKeeps(line, 2);
    var trimmed := TrimEnd(line);
    TrimQuotesEndKeeps(trimmed, 2);
    NoFileComesBack();
    hide TrimEnd, TrimStart, TrimQuotesEnd, TrimQuotesStart, NormalizeDiffPath;
    SideStripped(path, side, trimmed);
  }

  lemma SideKept(path: string, side: string)
    requires side == "a/" || side == "b/"
    ensures TrimStart(side + path) == side + path
  {
    assert (side + path)[0] == side[0];
  }

  lemma NoFileComesBack()
    ensures NormalizeDiffPath("/dev/null") == "/dev/null"
  {
  }

  lemma SideStripped(path: string, side: string, trimmed: string)
    requires side == "a/" || side == "b/"
    requires TrimStart(side + path) == side + path && trimmed == TrimEnd(side + path)
    requires side <= trimmed <= side + path && side <= TrimQuotesEnd(trimmed) <= trimmed
    ensures NormalizeDiffPath(side + path) == TrimQuotesEnd(trimmed)[2..]
    ensures TrimQuotesEnd(trimmed)[2..] == path <==> trimmed == side + path && TrimQuotesEnd(trimmed) == trimmed
  {
    hide TrimEnd, TrimStart, TrimQuotesEnd;
    assert trimmed[0] == side[0];
    assert TrimQuotesStart(trimmed) == trimmed;
    assert (side + path)[2..] == path;
    assert side + trimmed[2..] == trimmed && side + TrimQuotesEnd(trimmed)[2..] == TrimQuotesEnd(trimmed);
  }

  lemma {:induction false} LastPathConcat(a: seq<Line>, b: seq<Line>)
    ensures LastOldPath(a + b) == Or(LastOldPath(b), LastOldPath(a))
    ensures LastNewPath(a + b) == Or(LastNewPath(b), LastNewPath(a))
  {
    if b == [] {
      assert a + b == a;
    } else {
      assert (a + b)[..|a + b| - 1] == a + b[..|b| - 1];
      LastPathConcat(a, b[..|b| - 1]);
    }
  }

  predicate NoPath(lines: seq<Line>) {
    LastOldPath(lines) == None && LastNewPath(lines) == None
  }

  /** A changed text that prints as a path line. */
  predicate ImitatesPath(change: Change) {
    (change.Add? && "++ " <= change.text) || (change.Delete? && "-- " <= change.text)
  }

  lemma ImitationIs(change: Change)
    ensures ImitatesPath(change) <==> Classify(PrintChange(change)).OldPath? || Classify(PrintChange(change)).NewPath?
  {
    var line, text := PrintChange(change), change.text;
    assert line[0] != 'd' && line[1..] == text;
    assert !(GIT_HEADER <= line);
    assert "+++ " <= line <==> line[0] == '+' && "++ " <= text;
    assert "--- " <= line <==> line[0] == '-' && "-- " <= text;
  }

  lemma {:induction false} ChangesNameNoPath(changes: seq<Change>)
    requires forall i | 0 <= i < |changes| :: !ImitatesPath(changes[i])
    ensures NoPath(Classified(PrintChanges(changes)))
  {
    hide Classify, PrintChange, ImitatesPath;
    if changes != [] {
      var n := |changes| - 1;
      var lines := Classified(PrintChanges(changes));
      ChangesNameNoPath(changes[..n]);
      ImitationIs(changes[n]);
      assert lines[..n] == Classified(PrintChanges(changes[..n]));
    }
  }

  lemma {:induction false} HunksNameNoPath(hunks: seq<Hunk>)
    requires forall i | 0 <= i < |AllChanges(hunks)| :: !ImitatesPath(AllChanges(hunks)[i])
    ensures NoPath(Classified(PrintHunks(hunks)))
  {
    hide Classified, ImitatesPath, PrintChanges;
    if hunks == [] {
      NoneCounted(HunkHeader);
    } else {
      var front, last := hunks[..|hunks| - 1], hunks[|hunks| - 1];
      assert forall i | 0 <= i < |AllChanges(front)| :: AllChanges(front)[i] == AllChanges(hunks)[i];
      assert forall i | 0 <= i < |last.changes| :: last.changes[i] == AllChanges(hunks)[|AllChanges(front)| + i];
      HunksNameNoPath(front);
      ChangesNameNoPath(last.changes);
      ClassifiedHunks(hunks);
      var before, after := Classified(PrintHunks(front)), Classified(PrintChanges(last.changes));
      hide PrintHunks, AllChanges;
      LastPathConcat(before + [HunkHeader], after);
      LastPathConcat(before, [HunkHeader]);
      assert [HunkHeader][..0] == [];
    }
  }

  lemma PathLineSays(file: FileDiff)
    ensures Classify(PrintOldPath(file)) ==
            OldPath(NormalizeDiffPath(if file.created then NO_FILE else "a/" + file.oldPath))
    ensures Classify(PrintNewPath(file)) ==
            NewPath(NormalizeDiffPath(if file.deleted then NO_FILE else "b/" + file.newPath))
  {
    hide NormalizeDiffPath;
    var first, second := PrintOldPath(file), PrintNewPath(file);
    assert first[0] == '-' && second[0] == '+';
    assert first[4..] == if file.created then NO_FILE else "a/" + file.oldPath;
    assert second[4..] == if file.deleted then NO_FILE else "b/" + file.newPath;
  }

  lemma PrintedBodyPaths(file: FileDiff)
    requires file.hunks != []
    requires forall i | 0 <= i < |AllChanges(file.hunks)| :: !ImitatesPath(AllChanges(file.hunks)[i])
    ensures LastOldPath(PrintedBody(file)) ==
            Some(NormalizeDiffPath(if file.created then NO_FILE else "a/" + file.oldPath))
    ensures LastNewPath(PrintedBody(file)) ==
            Some(NormalizeDiffPath(if file.deleted then NO_FILE else "b/" + file.newPath))
  {
    hide Classify, NormalizeDiffPath, ImitatesPath, PrintOldPath, PrintNewPath, PrintHunks, AllChanges;
    PathLineSays(file);
    HunksNameNoPath(file.hunks);
    var first, second := Classify(PrintOldPath(file)), Classify(PrintNewPath(file));
    var lines, rest := [first, second], Classified(PrintHunks(file.hunks));
    ClassifiedConcat(PrintPaths(file), PrintHunks(file.hunks));
    assert Classified(PrintPaths(file)) == lines;
    LastPathConcat(lines, rest);
    assert lines[..1] == [first];
  }

  lemma ReportOf(files: seq<FileDiff>, explicitPath: Option<string>, i: nat)
    requires i < |files| && forall line | line in PrintDiff(files) :: '\n' !in line
    ensures var report := PatchReport(Classified(Lines(Unlines(PrintDiff(files)))), explicitPath);
            |report| == |files| && report[i] == FileOf(StatsOf(PrintedSection(files[i])))
  {
    hide PrintDiff, Lines, Unlines, Classify, Sections, FileOf, StatsOf, PrintedSection;
    PrintedTextLines(PrintDiff(files));
    PrintedSections(files);
  }

  /** Unless a changed text imitates a path line, each side of a file with hunks
      is reported under its own path, exactly if that ends plain, or as
      `/dev/null` if the file was not there. The file itself goes by its new
      path, a deleted one by its old. */
  lemma PrintedPathsAreReported(files: seq<FileDiff>, explicitPath: Option<string>, i: nat)
    requires i < |files| && forall line | line in PrintDiff(files) :: '\n' !in line
    requires files[i].hunks != []
    requires var changes := AllChanges(files[i].hunks);
             forall j | 0 <= j < |changes| :: !ImitatesPath(changes[j])
    ensures var file, report := files[i], PatchReport(Classified(Lines(Unlines(PrintDiff(files)))), explicitPath);
            && |report| == |files|
            && var stats := report[i].stats;
               && (if file.created then stats.oldPath == Some("/dev/null")
                   else stats.oldPath == Some(file.oldPath) <==> EndsPlain(file.oldPath))
               && (if file.deleted then stats.newPath == Some("/dev/null")
                   else stats.newPath == Some(file.newPath) <==> EndsPlain(file.newPath))
               && (!file.deleted && EndsPlain(file.newPath) && file.newPath != "/dev/null" ==>
                     report[i].path == file.newPath)
               && (file.deleted && !file.created && EndsPlain(file.oldPath) && file.oldPath != "/dev/null" ==>
                     report[i].path == file.oldPath)
               && (file.deleted && file.created ==> report[i].path == "<unknown>")
  {
    hide PrintDiff, Lines, Unlines, Classify, PatchReport, NormalizeDiffPath, EndsPlain, AllChanges, ImitatesPath;
    ReportOf(files, explicitPath, i);
    PathComesBack(files[i].oldPath, "a/");
    PathComesBack(files[i].newPath, "b/");
    PrintedBodyPaths(files[i]);
    hide LastOldPath, LastNewPath, PrintedBody;
  }

  lemma {:induction false} WordIsWhole(word: string)
    requires forall i | 0 <= i < |word| :: !IsWhitespace(word[i])
    ensures Word(word) == (word, "")
  {
    if word != "" {
      WordIsWhole(word[1..]);
      assert [word[0]] + word[1..] == word;
    }
  }

  predicate NoSpace(path: string) {
    forall i | 0 <= i < |path| :: !IsWhitespace(path[i])
  }

  lemma HeaderSays(file: FileDiff)
    requires NoSpace(file.oldPath) && NoSpace(file.newPath)
    ensures Classify(PrintHeader(file)) ==
            GitHeader(NormalizeDiffPath("a/" + file.oldPath), NormalizeDiffPath("b/" + file.newPath))
  {
    hide NormalizeDiffPath;
    var first, second := "a/" + file.oldPath, "b/" + file.newPath;
    var paths, line := first + (" " + second), PrintHeader(file);
    assert line == GIT_HEADER + paths;
    assert line[|GIT_HEADER|..] == paths;
    assert TrimStart(paths) == paths;
    WordEndsAtSpace(first, " " + second);
    assert (" " + second)[1..] == second;
    assert TrimStart(" " + second) == TrimStart(second) == second;
    WordIsWhole(second);
  }

  /** A file without hunks, such as a rename, is reported by its header. */
  lemma PrintedRenameIsReported(files: seq<FileDiff>, explicitPath: Option<string>, i: nat)
    requires i < |files| && forall line | line in PrintDiff(files) :: '\n' !in line
    requires files[i].hunks == [] && NoSpace(files[i].oldPath) && NoSpace(files[i].newPath)
    ensures var file, report := files[i], PatchReport(Classified(Lines(Unlines(PrintDiff(files)))), explicitPath);
            && |report| == |files|
            && (report[i].stats.oldPath == Some(file.oldPath) <==> EndsPlain(file.oldPath))
            && (report[i].stats.newPath == Some(file.newPath) <==> EndsPlain(file.newPath))
            && (EndsPlain(file.newPath) && file.newPath != "/dev/null" ==> report[i].path == file.newPath)
            && report[i].stats.hunks == 0
  {
    hide PrintDiff, Lines, Unlines, PatchReport, NormalizeDiffPath, EndsPlain, NoSpace, Classify;
    ReportOf(files, explicitPath, i);
    PathComesBack(files[i].oldPath, "a/");
    PathComesBack(files[i].newPath, "b/");
    HeaderSays(files[i]);
    assert PrintedBody(files[i]) == [];
  }

  lemma LastLineRenames(file: FileDiff, changes: seq<Change>, path: string)
    requires file.hunks != [] && file.hunks[|file.hunks| - 1].changes == changes + [Add("++ " + path)]
    ensures LastNewPath(PrintedBody(file)) == Some(NormalizeDiffPath(path))
  {
    hide NormalizeDiffPath;
    var lines, body := PrintHunks(file.hunks), PrintedBody(file);
    var line := "+" + ("++ " + path);
    assert lines[|lines| - 1] == line;
    assert line[4..] == path && line[0] == '+';
    assert Classify(line) == NewPath(NormalizeDiffPath(path));
    assert body[|body| - 1] == Classify(line) by {
      hide Classify;
    }
  }

  /** A file whose last change adds `++ ` and a path goes by that path. */
  lemma DisguisedAdditionRenames(files: seq<FileDiff>, explicitPath: Option<string>, i: nat, changes: seq<Change>,
                                 path: string)
    requires i < |files| && forall line | line in PrintDiff(files) :: '\n' !in line
    requires var hunks := files[i].hunks;
             hunks != [] && hunks[|hunks| - 1].changes == changes + [Add("++ b/" + path)]
    requires EndsPlain(path) && path != "/dev/null"
    ensures var report := PatchReport(Classified(Lines(Unlines(PrintDiff(files)))), explicitPath);
            |report| == |files| && report[i].path == path
  {
    hide PrintDiff, Lines, Unlines, PatchReport, NormalizeDiffPath, Classify, LastOldPath, LastNewPath, PrintedBody;
    assert "++ b/" + path == "++ " + ("b/" + path);
    ReportOf(files, explicitPath, i);
    LastLineRenames(files[i], changes, "b/" + path);
    PathComesBack(path, "b/");
  }

  /** One added line, `++x`, counts as none. */
  lemma DisguisedAdditionIsMissed()
    ensures var file := FileDiff("a", "a", true, false, [Hunk(" -0,0 +1 @@", [Add("++x")])]);
            var report := PatchReport(Classified(PrintDiff([file])), None);
            && CountMade(AllChanges(file.hunks), Addition) == 1
            && |report| == 1 && report[0].stats.additions == 0
  {
    hide PatchReport, Classified, PrintDiff;
    var hunk := Hunk(" -0,0 +1 @@", [Add("++x")]);
    var file := FileDiff("a", "a", true, false, [hunk]);
    PrintedDiffCounts([file], None, 0, Addition);
    assert [hunk][..0] == [] && [] + hunk.changes == hunk.changes;
    assert AllChanges(file.hunks) == [Add("++x")];
  }
}
