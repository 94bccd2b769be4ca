/** The parser of `git status --porcelain=2 --branch --show-stash` output
    (`parseStatus`): newline-separated records, space-separated fields, folded
    into one `Status`. A record that is too short for the fields the parser
    reads is a `MalformedRecord` error where the program would fault. */
module StatusParser {
  import opened Text

  datatype Status = Status(
    Commit: string,
    Branch: string,
    Upstream: string,
    Ahead: int,
    Behind: int,
    Staged: int,
    Conflict: int,
    Modified: int,
    Untracked: int,
    Stashed: int)

  /** The zero value the parser starts from. */
  const EMPTY_STATUS: Status := Status("", "", "", 0, 0, 0, 0, 0, 0, 0)

  datatype ParseError =
    | MalformedRecord(record: string)
    | BadStashCount(text: string)
    | BadAhead(text: string)
    | BadBehind(text: string)

  /** The two-letter codes of an unmerged (conflicted) entry. */
  const CONFLICT_CODES: seq<string> := ["DD", "AU", "UD", "UA", "DU", "AA", "UU"]

  function Fields(line: string): (f: seq<string>)
    ensures |f| >= 1
  {
    Split(line, ' ')
  }

  function Records(output: string): (lines: seq<string>)
  {
    Split(output, '\n')
  }

  // ---------------------------------------------------------------------------
  // The specification: one record at a time, then a left fold

  /** The effect of one record on the status, or the error it raises. The
      checks come in the order the program makes them, so a record that is both
      short and non-numeric reports whichever the program meets first. */
  function ApplyRecord(st: Status, line: string): (r: Result<Status, ParseError>)
    ensures r.Err? ==> Fields(line)[0] == "#" || Fields(line)[0] == "1" || Fields(line)[0] == "2"
    ensures r.Ok? ==>
      && st.Staged <= r.value.Staged && st.Conflict <= r.value.Conflict
      && st.Modified <= r.value.Modified && st.Untracked <= r.value.Untracked
      && r.value.Staged + r.value.Conflict + r.value.Modified + r.value.Untracked
         <= st.Staged + st.Conflict + st.Modified + st.Untracked + 1
  {
    var s := Fields(line);
    if s[0] == "#" then
      if |s| < 2 then Err(MalformedRecord(line))
      else if s[1] == "branch.oid" then
        if |s| < 3 then Err(MalformedRecord(line)) else Ok(st.(Commit := s[2]))
      else if s[1] == "branch.head" then
        if |s| < 3 then Err(MalformedRecord(line)) else Ok(st.(Branch := s[2]))
      else if s[1] == "stash" then
        if |s| < 3 then Err(MalformedRecord(line))
        else if Atoi(s[2]).None? then Err(BadStashCount(s[2]))
        else Ok(st.(Stashed := Atoi(s[2]).value))
      else if s[1] == "branch.upstream" then
        if |s| < 3 then Err(MalformedRecord(line)) else Ok(st.(Upstream := s[2]))
      else if s[1] == "branch.ab" then
        if |s| < 3 || |s[2]| < 1 then Err(MalformedRecord(line))
        else if Atoi(s[2][1..]).None? then Err(BadAhead(s[2][1..]))
        else if |s| < 4 || |s[3]| < 1 then Err(MalformedRecord(line))
        else if Atoi(s[3][1..]).None? then Err(BadBehind(s[3][1..]))
        else Ok(st.(Ahead := Atoi(s[2][1..]).value, Behind := Atoi(s[3][1..]).value))
      else Ok(st)
    else if s[0] == "1" || s[0] == "2" then
      if |s| < 2 then Err(MalformedRecord(line))
      else if s[1] in CONFLICT_CODES then Ok(st.(Conflict := st.Conflict + 1))
      else if |s[1]| < 2 then Err(MalformedRecord(line))
      else if s[1][1] == 'M' then Ok(st.(Modified := st.Modified + 1))
      else Ok(st.(Staged := st.Staged + 1))
    else if s[0] == "?" then Ok(st.(Untracked := st.Untracked + 1))
    else Ok(st)
  }

  /** Every record in turn, stopping at the first error. */
  function ParseLines(st: Status, lines: seq<string>): (r: Result<Status, ParseError>)
    ensures r.Err? ==> |lines| > 0
    ensures r.Ok? ==>
      && st.Staged <= r.value.Staged && st.Conflict <= r.value.Conflict
      && st.Modified <= r.value.Modified && st.Untracked <= r.value.Untracked
      && r.value.Staged + r.value.Conflict + r.value.Modified + r.value.Untracked
         <= st.Staged + st.Conflict + st.Modified + st.Untracked + |lines|
    decreases |lines|
  {
    if |lines| == 0 then Ok(st)
    else
      match ApplyRecord(st, lines[0])
      case Err(e) => Err(e)
      case Ok(next) => ParseLines(next, lines[1..])
  }

  lemma ParseLinesStep(st: Status, lines: seq<string>, i: nat)
    requires i < |lines|
    ensures ParseLines(st, lines[i..]) ==
      match ApplyRecord(st, lines[i])
      case Err(e) => Err(e)
      case Ok(next) => ParseLines(next, lines[i + 1..])
  {
    assert lines[i..][0] == lines[i];
    assert lines[i..][1..] == lines[i + 1..];
  }

  // ---------------------------------------------------------------------------
  // The program: a loop over the records updating one status

  /** `parseStatus`: the records of `output` folded into a status, or the first
      error met. */
  method ParseStatus(output: string) returns (r: Result<Status, ParseError>)
    ensures r == ParseLines(EMPTY_STATUS, Records(output))
  {
    var status := EMPTY_STATUS;
    var lines := Split(output, '\n');
    var i := 0;
    while i < |lines|
      invariant i <= |lines|
      invariant ParseLines(status, lines[i..]) == ParseLines(EMPTY_STATUS, lines)
    {
      var line := lines[i];
      ParseLinesStep(status, lines, i);
      var s := Split(line, ' ');
      if s[0] == "#" {
        if |s| < 2 {
          return Err(MalformedRecord(line));
        }
        if s[1] == "branch.oid" {
          if |s| < 3 {
            return Err(MalformedRecord(line));
          }
          status := status.(Commit := s[2]);
        } else if s[1] == "branch.head" {
          if |s| < 3 {
            return Err(MalformedRecord(line));
          }
          status := status.(Branch := s[2]);
        } else if s[1] == "stash" {
          if |s| < 3 {
            return Err(MalformedRecord(line));
          }
          var numStashed := Atoi(s[2]);
          if numStashed.None? {
            return Err(BadStashCount(s[2]));
          }
          status := status.(Stashed := numStashed.value);
        } else if s[1] == "branch.upstream" {
          if |s| < 3 {
            return Err(MalformedRecord(line));
          }
          status := status.(Upstream := s[2]);
        } else if s[1] == "branch.ab" {
          if |s| < 3 || |s[2]| < 1 {
            return Err(MalformedRecord(line));
          }
          var ahead := Atoi(s[2][1..]);
          if ahead.None? {
            return Err(BadAhead(s[2][1..]));
          }
          status := status.(Ahead := ahead.value);
          if |s| < 4 || |s[3]| < 1 {
            return Err(MalformedRecord(line));
          }
          var behind := Atoi(s[3][1..]);
          if behind.None? {
            return Err(BadBehind(s[3][1..]));
          }
          status := status.(Behind := behind.value);
        }
      } else if s[0] == "1" || s[0] == "2" {
        if |s| < 2 {
          return Err(MalformedRecord(line));
        }
        if s[1] in CONFLICT_CODES {
          status := status.(Conflict := status.Conflict + 1);
        } else {
          if |s[1]| < 2 {
            return Err(MalformedRecord(line));
          }
          if s[1][1] == 'M' {
            status := status.(Modified := status.Modified + 1);
          } else {
            status := status.(Staged := status.Staged + 1);
          }
        }
      } else if s[0] == "?" {
        status := status.(Untracked := status.Untracked + 1);
      }
      i := i + 1;
    }
    assert lines[i..] == [];
    return Ok(status);
  }

  // ---------------------------------------------------------------------------
  // What a record does, classified by its first field

  predicate IsUntrackedRecord(line: string)
  {
    Fields(line)[0] == "?"
  }

  predicate IsChangedRecord(line: string)
  {
    Fields(line)[0] == "1" || Fields(line)[0] == "2"
  }

  /** The XY status code of a changed-entry record. */
  function ChangeCode(line: string): string
  {
    var f := Fields(line);
    if |f| >= 2 then f[1] else ""
  }

  predicate IsConflictRecord(line: string)
  {
    IsChangedRecord(line) && ChangeCode(line) in CONFLICT_CODES
  }

  predicate IsModifiedRecord(line: string)
  {
    && IsChangedRecord(line) && ChangeCode(line) !in CONFLICT_CODES
    && |ChangeCode(line)| >= 2 && ChangeCode(line)[1] == 'M'
  }

  predicate IsStagedRecord(line: string)
  {
    && IsChangedRecord(line) && ChangeCode(line) !in CONFLICT_CODES
    && |ChangeCode(line)| >= 2 && ChangeCode(line)[1] != 'M'
  }

  /** How many of `lines` satisfy `p`. */
  function CountWhere(lines: seq<string>, p: string -> bool): (n: nat)
    ensures n <= |lines|
  {
    if |lines| == 0 then 0 else (if p(lines[0]) then 1 else 0) + CountWhere(lines[1..], p)
  }

  function Indicator(b: bool): nat
  {
    if b then 1 else 0
  }

  /** A record that is accepted moves each of the four file counters by one
      exactly when it is a record of that kind. */
  lemma RecordCounters(st: Status, line: string)
    requires ApplyRecord(st, line).Ok?
    ensures var next := ApplyRecord(st, line).value;
      && next.Conflict == st.Conflict + Indicator(IsConflictRecord(line))
      && next.Modified == st.Modified + Indicator(IsModifiedRecord(line))
      && next.Staged == st.Staged + Indicator(IsStagedRecord(line))
      && next.Untracked == st.Untracked + Indicator(IsUntrackedRecord(line))
  {
  }

  /** An accepted changed-entry record is exactly one of conflict, modified
      or staged, and changes nothing but that one counter. */
  lemma ChangedRecordCountsOnce(st: Status, line: string)
    requires IsChangedRecord(line) && ApplyRecord(st, line).Ok?
    ensures Indicator(IsConflictRecord(line)) + Indicator(IsModifiedRecord(line)) + Indicator(IsStagedRecord(line)) == 1
    ensures var next := ApplyRecord(st, line).value;
      next.Conflict + next.Modified + next.Staged == st.Conflict + st.Modified + st.Staged + 1
      && next.(Conflict := st.Conflict, Modified := st.Modified, Staged := st.Staged) == st
  {
  }

  /** An untracked record increments Untracked and nothing else; a record of any
      other kind, including the empty one after the final newline, is ignored. */
  lemma OtherRecordsIgnored(st: Status, line: string)
    ensures IsUntrackedRecord(line) ==> ApplyRecord(st, line) == Ok(st.(Untracked := st.Untracked + 1))
    ensures Fields(line)[0] !in {"#", "1", "2", "?"} ==> ApplyRecord(st, line) == Ok(st)
    ensures ApplyRecord(st, "") == Ok(st)
  {
  }

  /** After a successful parse each counter has grown by the number of records
      of its kind. */
  lemma {:induction false} ParseCounts(st0: Status, lines: seq<string>, st: Status)
    requires ParseLines(st0, lines) == Ok(st)
    ensures st.Conflict == st0.Conflict + CountWhere(lines, IsConflictRecord)
    ensures st.Modified == st0.Modified + CountWhere(lines, IsModifiedRecord)
    ensures st.Staged == st0.Staged + CountWhere(lines, IsStagedRecord)
    ensures st.Untracked == st0.Untracked + CountWhere(lines, IsUntrackedRecord)
    ensures st.Conflict + st.Modified + st.Staged
      == st0.Conflict + st0.Modified + st0.Staged + CountWhere(lines, IsChangedRecord)
    decreases |lines|
  {
    if |lines| > 0 {
      var next := ApplyRecord(st0, lines[0]).value;
      RecordCounters(st0, lines[0]);
      if IsChangedRecord(lines[0]) {
        ChangedRecordCountsOnce(st0, lines[0]);
      }
      ParseCounts(next, lines[1..], st);
    }
  }

  // ---------------------------------------------------------------------------
  // Header records: the last one of each kind wins

  /** The fields of the last `# <key> ...` header among `lines`. */
  function LastHeader(lines: seq<string>, key: string): (h: Option<seq<string>>)
    ensures h.Some? ==> |h.value| >= 2 && h.value[0] == "#" && h.value[1] == key
  {
    if |lines| == 0 then None
    else
      match LastHeader(lines[1..], key)
      case Some(f) => Some(f)
      case None =>
        var f := Fields(lines[0]);
        if |f| >= 2 && f[0] == "#" && f[1] == key then Some(f) else None
  }

  /** The branch strings of a successful parse come from the last header of
      their kind, and keep their starting value when there is none. */
  lemma {:induction false} BranchHeadersLastWins(st0: Status, lines: seq<string>, st: Status)
    requires ParseLines(st0, lines) == Ok(st)
    ensures match LastHeader(lines, "branch.oid")
      case None => st.Commit == st0.Commit
      case Some(f) => |f| >= 3 && st.Commit == f[2]
    ensures match LastHeader(lines, "branch.head")
      case None => st.Branch == st0.Branch
      case Some(f) => |f| >= 3 && st.Branch == f[2]
    ensures match LastHeader(lines, "branch.upstream")
      case None => st.Upstream == st0.Upstream
      case Some(f) => |f| >= 3 && st.Upstream == f[2]
    decreases |lines|
  {
    if |lines| > 0 {
      BranchRecord(st0, lines[0]);
      BranchHeadersLastWins(ApplyRecord(st0, lines[0]).value, lines[1..], st);
    }
  }

  /** One accepted record sets a branch string exactly when it is a header of
      that kind. */
  lemma BranchRecord(st: Status, line: string)
    requires ApplyRecord(st, line).Ok?
    ensures var f, next := Fields(line), ApplyRecord(st, line).value;
      && (if |f| >= 2 && f[0] == "#" && f[1] == "branch.oid" then |f| >= 3 && next.Commit == f[2] else next.Commit == st.Commit)
      && (if |f| >= 2 && f[0] == "#" && f[1] == "branch.head" then |f| >= 3 && next.Branch == f[2] else next.Branch == st.Branch)
      && (if |f| >= 2 && f[0] == "#" && f[1] == "branch.upstream" then |f| >= 3 && next.Upstream == f[2] else next.Upstream == st.Upstream)
  {
  }

  /** The numbers of a successful parse come from the last header of their
      kind: the stash count is the third field read as an integer, and ahead and
      behind are the third and fourth fields read without their sign. */
  lemma {:induction false} NumericHeadersLastWins(st0: Status, lines: seq<string>, st: Status)
    requires ParseLines(st0, lines) == Ok(st)
    ensures match LastHeader(lines, "stash")
      case None => st.Stashed == st0.Stashed
      case Some(f) => |f| >= 3 && Atoi(f[2]) == Some(st.Stashed)
    ensures match LastHeader(lines, "branch.ab")
      case None => st.Ahead == st0.Ahead && st.Behind == st0.Behind
      case Some(f) =>
        && |f| >= 4 && |f[2]| >= 1 && |f[3]| >= 1
        && Atoi(f[2][1..]) == Some(st.Ahead) && Atoi(f[3][1..]) == Some(st.Behind)
    decreases |lines|
  {
    if |lines| > 0 {
      NumericRecord(st0, lines[0]);
      NumericHeadersLastWins(ApplyRecord(st0, lines[0]).value, lines[1..], st);
    }
  }

  /** One accepted record sets the stash count, or ahead and behind, exactly
      when it is a header of that kind. */
  lemma NumericRecord(st: Status, line: string)
    requires ApplyRecord(st, line).Ok?
    ensures var f, next := Fields(line), ApplyRecord(st, line).value;
      && (if |f| >= 2 && f[0] == "#" && f[1] == "stash" then |f| >= 3 && Atoi(f[2]) == Some(next.Stashed)
          else next.Stashed == st.Stashed)
      && (if |f| >= 2 && f[0] == "#" && f[1] == "branch.ab" then
            && |f| >= 4 && |f[2]| >= 1 && |f[3]| >= 1
            && Atoi(f[2][1..]) == Some(next.Ahead) && Atoi(f[3][1..]) == Some(next.Behind)
          else next.Ahead == st.Ahead && next.Behind == st.Behind)
  {
  }

  // ---------------------------------------------------------------------------
  // Errors

  /** Whether a record is rejected, and why, does not depend on the status. */
  lemma ErrorIgnoresStatus(a: Status, b: Status, line: string)
    ensures ApplyRecord(a, line).Err? <==> ApplyRecord(b, line).Err?
    ensures ApplyRecord(a, line).Err? ==> ApplyRecord(a, line) == ApplyRecord(b, line)
  {
  }

  /** The numeric headers: a stash count, or an ahead or behind count with its
      sign stripped, that Atoi rejects is reported with its text, and only
      such a count is. */
  lemma NumericRecordErrors(st: Status, line: string, f: seq<string>)
    requires f == Fields(line)
    ensures f[0] == "#" && |f| >= 3 && f[1] == "stash" ==>
      (ApplyRecord(st, line) == Err(BadStashCount(f[2])) <==> Atoi(f[2]).None?)
    ensures f[0] == "#" && |f| >= 3 && f[1] == "branch.ab" && |f[2]| >= 1 ==>
      (ApplyRecord(st, line) == Err(BadAhead(f[2][1..])) <==> Atoi(f[2][1..]).None?)
    ensures f[0] == "#" && |f| >= 4 && f[1] == "branch.ab" && |f[2]| >= 1 && |f[3]| >= 1 ==>
      (ApplyRecord(st, line) == Err(BadBehind(f[3][1..])) <==> Atoi(f[2][1..]).Some? && Atoi(f[3][1..]).None?)
    ensures ApplyRecord(st, line).Err? && ApplyRecord(st, line).error.BadStashCount? ==>
      f[0] == "#" && |f| >= 3 && f[1] == "stash"
    ensures ApplyRecord(st, line).Err? && ApplyRecord(st, line).error.BadAhead? ==>
      f[0] == "#" && |f| >= 3 && f[1] == "branch.ab"
    ensures ApplyRecord(st, line).Err? && ApplyRecord(st, line).error.BadBehind? ==>
      f[0] == "#" && |f| >= 4 && f[1] == "branch.ab"
  {
  }

  /** Every other error is a malformed record, naming the record, and arises
      only from a header or changed entry too short for the fields the program
      reads; a header without a key and a changed entry without a code always
      are. */
  lemma MalformedOnlyWhenShort(st: Status, line: string, f: seq<string>)
    requires f == Fields(line)
    ensures ApplyRecord(st, line).Err? && ApplyRecord(st, line).error.MalformedRecord? ==>
      && ApplyRecord(st, line).error.record == line
      && ((f[0] == "#" && (|f| < 3 || (f[1] == "branch.ab" && (|f| < 4 || |f[2]| == 0 || |f[3]| == 0))))
          || ((f[0] == "1" || f[0] == "2") && (|f| < 2 || |f[1]| < 2)))
    ensures (f[0] == "#" || f[0] == "1" || f[0] == "2") && |f| < 2 ==>
      ApplyRecord(st, line) == Err(MalformedRecord(line))
    ensures f[0] == "#" && |f| == 2 && f[1] in {"branch.oid", "branch.head", "stash", "branch.upstream", "branch.ab"} ==>
      ApplyRecord(st, line) == Err(MalformedRecord(line))
  {
  }

  /** A parse fails exactly when some record is rejected on its own, and then
      with the error of the first such record. */
  lemma {:induction false} ParseFailsAtFirstBadRecord(st0: Status, lines: seq<string>)
    ensures ParseLines(st0, lines).Err? <==>
      exists i :: 0 <= i < |lines| && ApplyRecord(EMPTY_STATUS, lines[i]).Err?
    ensures ParseLines(st0, lines).Err? ==>
      exists i :: 0 <= i < |lines| && ApplyRecord(EMPTY_STATUS, lines[i]) == ParseLines(st0, lines)
        && forall j :: 0 <= j < i ==> ApplyRecord(EMPTY_STATUS, lines[j]).Ok?
    decreases |lines|
  {
    if |lines| > 0 {
      ErrorIgnoresStatus(st0, EMPTY_STATUS, lines[0]);
      match ApplyRecord(st0, lines[0])
      case Err(e) =>
        assert ApplyRecord(EMPTY_STATUS, lines[0]) == ParseLines(st0, lines);
      case Ok(next) =>
        var rest := lines[1..];
        ParseFailsAtFirstBadRecord(next, rest);
        assert ParseLines(st0, lines) == ParseLines(next, rest);
        assert forall k :: 0 <= k < |rest| ==> rest[k] == lines[k + 1];
        if ParseLines(st0, lines).Err? {
          var k :| 0 <= k < |rest| && ApplyRecord(EMPTY_STATUS, rest[k]) == ParseLines(next, rest)
            && forall j :: 0 <= j < k ==> ApplyRecord(EMPTY_STATUS, rest[j]).Ok?;
          assert ApplyRecord(EMPTY_STATUS, lines[k + 1]) == ParseLines(st0, lines);
          assert forall j :: 0 <= j < k + 1 ==> ApplyRecord(EMPTY_STATUS, lines[j]).Ok? by {
            forall j | 0 <= j < k + 1
              ensures ApplyRecord(EMPTY_STATUS, lines[j]).Ok?
            {
              if j > 0 {
                assert lines[j] == rest[j - 1];
              }
            }
          }
        } else {
          forall i | 0 <= i < |lines|
            ensures ApplyRecord(EMPTY_STATUS, lines[i]).Ok?
          {
            if i > 0 {
              assert lines[i] == rest[i - 1];
            }
          }
        }
    }
  }
}
