/** Worked examples: a whole `git status --porcelain=v2 --branch --show-stash`
    report parsed and rendered with the default symbols. */
module Examples {
  import opened Text
  import opened StatusParser
  import opened RepoState
  import opened Render

  /** A character other than the separator that no piece holds is not in the join. */
  lemma {:induction false} JoinAvoids(parts: seq<string>, sep: char, c: char)
    requires c != sep
    requires forall i :: 0 <= i < |parts| ==> c !in parts[i]
    ensures c !in Join(parts, sep)
    decreases |parts|
  {
    if |parts| > 1 {
      JoinAvoids(parts[1..], sep, c);
    }
  }

  /** A record written as its space-separated fields. */
  function Line(fields: seq<string>): string
  {
    Join(fields, ' ')
  }

  /** Fields free of spaces and newlines make a record that splits back into them. */
  lemma LineFields(fields: seq<string>)
    requires |fields| >= 1
    requires forall i :: 0 <= i < |fields| ==> ' ' !in fields[i] && '\n' !in fields[i]
    ensures Fields(Line(fields)) == fields
    ensures '\n' !in Line(fields)
  {
    SplitJoin(fields, ' ');
    JoinAvoids(fields, ' ', '\n');
  }

  const HEAD: seq<string> := ["#", "branch.head", "main"]
  const UPSTREAM: seq<string> := ["#", "branch.upstream", "origin/main"]
  const AB: seq<string> := ["#", "branch.ab", "+2", "-1"]
  const CHANGED: seq<string> := ["1", ".M", "N...", "100644", "100644", "100644", "abc", "abc", "file.txt"]
  const UNTRACKED: seq<string> := ["?", "newfile.txt"]

  const EXAMPLE: Status := Status("", "main", "origin/main", 2, 1, 0, 0, 1, 1, 0)

  /** Each example record splits back into its fields and holds no newline. */
  lemma HeadLine()
    ensures Fields(Line(HEAD)) == HEAD && '\n' !in Line(HEAD)
  {
    LineFields(HEAD);
  }

  lemma UpstreamLine()
    ensures Fields(Line(UPSTREAM)) == UPSTREAM && '\n' !in Line(UPSTREAM)
  {
    LineFields(UPSTREAM);
  }

  lemma AheadBehindLine()
    ensures Fields(Line(AB)) == AB && '\n' !in Line(AB)
  {
    LineFields(AB);
  }

  lemma ChangedLine()
    ensures Fields(Line(CHANGED)) == CHANGED && '\n' !in Line(CHANGED)
  {
    LineFields(CHANGED);
  }

  lemma UntrackedLine()
    ensures Fields(Line(UNTRACKED)) == UNTRACKED && '\n' !in Line(UNTRACKED)
  {
    LineFields(UNTRACKED);
  }

  lemma HeadRecord(st: Status, line: string)
    requires Fields(line) == HEAD
    ensures ApplyRecord(st, line) == Ok(st.(Branch := "main"))
  {
  }

  lemma UpstreamRecord(st: Status, line: string)
    requires Fields(line) == UPSTREAM
    ensures ApplyRecord(st, line) == Ok(st.(Upstream := "origin/main"))
  {
  }

  /** `+2 -1`: the signs are dropped, so ahead is 2 and behind is 1. */
  lemma AheadBehindRecord(st: Status, line: string)
    requires Fields(line) == AB
    ensures ApplyRecord(st, line) == Ok(st.(Ahead := 2, Behind := 1))
  {
    assert "+2"[1..] == "2" && "-1"[1..] == "1";
    assert Atoi("2") == Some(2) && Atoi("1") == Some(1);
  }

  /** `.M`: changed in the worktree only, so it counts as modified. */
  lemma ChangedRecord(st: Status, line: string)
    requires Fields(line) == CHANGED
    ensures ApplyRecord(st, line) == Ok(st.(Modified := st.Modified + 1))
  {
    assert ".M" !in CONFLICT_CODES;
  }

  lemma UntrackedRecord(st: Status, line: string)
    requires Fields(line) == UNTRACKED
    ensures ApplyRecord(st, line) == Ok(st.(Untracked := st.Untracked + 1))
  {
  }

  /** `UU` (both sides modified, unmerged) counts as a conflict even though its
      second letter is not `M`. */
  lemma BothModifiedIsConflict(st: Status, line: string)
    requires |Fields(line)| >= 2 && Fields(line)[0] == "1" && Fields(line)[1] == "UU"
    ensures ApplyRecord(st, line) == Ok(st.(Conflict := st.Conflict + 1))
    ensures IsConflictRecord(line) && !IsModifiedRecord(line) && !IsStagedRecord(line)
  {
    assert "UU" in CONFLICT_CODES by {
      assert CONFLICT_CODES[6] == "UU";
    }
  }

  /** A report of five records with the example's fields, each ended by a
      newline so that an empty record comes last, parses to the example
      status. */
  lemma ParseRecords(h: string, u: string, ab: string, c: string, t: string)
    requires Fields(h) == HEAD && Fields(u) == UPSTREAM && Fields(ab) == AB
    requires Fields(c) == CHANGED && Fields(t) == UNTRACKED
    requires '\n' !in h && '\n' !in u && '\n' !in ab && '\n' !in c && '\n' !in t
    ensures ParseLines(EMPTY_STATUS, Records(Join([h, u, ab, c, t, ""], '\n'))) == Ok(EXAMPLE)
  {
    var lines := [h, u, ab, c, t, ""];
    assert forall i :: 0 <= i < 6 ==> '\n' !in lines[i];
    SplitJoin(lines, '\n');
    FoldHeaders(lines);
  }

  /** The three headers set branch, upstream, ahead and behind. */
  lemma FoldHeaders(lines: seq<string>)
    requires |lines| == 6 && lines[5] == ""
    requires Fields(lines[0]) == HEAD && Fields(lines[1]) == UPSTREAM && Fields(lines[2]) == AB
    requires Fields(lines[3]) == CHANGED && Fields(lines[4]) == UNTRACKED
    ensures ParseLines(EMPTY_STATUS, lines) == Ok(EXAMPLE)
  {
    var s1 := EMPTY_STATUS.(Branch := "main");
    var s2 := s1.(Upstream := "origin/main");
    var s3 := s2.(Ahead := 2, Behind := 1);
    HeadRecord(EMPTY_STATUS, lines[0]);
    UpstreamRecord(s1, lines[1]);
    AheadBehindRecord(s2, lines[2]);
    FoldEntries(s3, lines);
    ParseLinesStep(s2, lines, 2);
    ParseLinesStep(s1, lines, 1);
    ParseLinesStep(EMPTY_STATUS, lines, 0);
    assert lines[0..] == lines;
  }

  /** The changed and untracked entries, then the empty last record. */
  lemma FoldEntries(s3: Status, lines: seq<string>)
    requires s3 == EMPTY_STATUS.(Branch := "main", Upstream := "origin/main", Ahead := 2, Behind := 1)
    requires |lines| == 6 && lines[5] == ""
    requires Fields(lines[3]) == CHANGED && Fields(lines[4]) == UNTRACKED
    ensures ParseLines(s3, lines[3..]) == Ok(EXAMPLE)
  {
    var s4 := s3.(Modified := 1);
    ChangedRecord(s3, lines[3]);
    UntrackedRecord(s4, lines[4]);
    OtherRecordsIgnored(EXAMPLE, "");
    assert |lines[6..]| == 0;
    ParseLinesStep(EXAMPLE, lines, 5);
    ParseLinesStep(s4, lines, 4);
    ParseLinesStep(s3, lines, 3);
  }

  /** A branch two commits ahead of and one behind its upstream, with one file
      modified in the worktree and one untracked file, parses to those counts;
      the report ends with a newline, as git writes it. */
  lemma ParseExample()
    ensures ParseLines(EMPTY_STATUS,
      Records(Join([Line(HEAD), Line(UPSTREAM), Line(AB), Line(CHANGED), Line(UNTRACKED), ""], '\n'))) == Ok(EXAMPLE)
  {
    HeadLine();
    UpstreamLine();
    AheadBehindLine();
    ChangedLine();
    UntrackedLine();
    ParseRecords(Line(HEAD), Line(UPSTREAM), Line(AB), Line(CHANGED), Line(UNTRACKED));
  }

  /** That status renders as `[main {origin/main} ↑·2↓·1|✚ 1…1]`. */
  lemma RenderExample()
    ensures Render.Render(EXAMPLE, State(0, 0, ""), DEFAULT_SYMBOLS) == "[main {origin/main} ↑·2↓·1|✚ 1…1]"
  {
    ExampleSections();
    ExampleLine("main {origin/main} ↑·2↓·1", "✚ 1…1");
    ExampleText();
  }

  lemma ExampleText()
    ensures "[" + "main {origin/main} ↑·2↓·1" + "|" + "✚ 1…1" + "]" == "[main {origin/main} ↑·2↓·1|✚ 1…1]"
  {
  }

  lemma ExampleLine(b: string, c: string)
    requires BranchSection(EXAMPLE, DEFAULT_SYMBOLS) == b && CountSection(EXAMPLE, DEFAULT_SYMBOLS) == c
    requires OperationSection(State(0, 0, ""), DEFAULT_SYMBOLS) == ""
    ensures Render.Render(EXAMPLE, State(0, 0, ""), DEFAULT_SYMBOLS) == "[" + b + "|" + c + "]"
  {
    assert "[" + b + "|" + "" + c + "]" == "[" + b + "|" + c + "]";
  }

  lemma ExampleSections()
    ensures BranchSection(EXAMPLE, DEFAULT_SYMBOLS) == "main {origin/main} ↑·2↓·1"
    ensures OperationSection(State(0, 0, ""), DEFAULT_SYMBOLS) == ""
    ensures CountSection(EXAMPLE, DEFAULT_SYMBOLS) == "✚ 1…1"
  {
    ExampleBranch();
    ExampleCounts();
  }

  lemma ExampleBranch()
    ensures BranchSection(EXAMPLE, DEFAULT_SYMBOLS) == "main {origin/main} ↑·2↓·1"
  {
    ExampleTracking();
  }

  lemma ExampleTracking()
    ensures Tracking(EXAMPLE, DEFAULT_SYMBOLS) == " {origin/main} ↑·2↓·1"
  {
    ExampleGroups();
    assert Tracking(EXAMPLE, DEFAULT_SYMBOLS) == " {" + "origin/main" + "}" + (" " + "↑·2" + "↓·1");
  }

  lemma ExampleGroups()
    ensures Group("↑·", 2) == "↑·2" && Group("↓·", 1) == "↓·1"
  {
    assert Decimal(2) == "2" && Decimal(1) == "1";
  }

  lemma ExampleCounts()
    ensures CountSection(EXAMPLE, DEFAULT_SYMBOLS) == "✚ 1…1"
  {
    assert Decimal(1) == "1";
    assert Group("✚ ", 1) == "✚ 1" && Group("…", 1) == "…1";
  }
}
