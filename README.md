# compact-git-status in Dafny

compact-git-status prints a one-line summary of a git working tree for a
shell prompt. An example is `[main {origin/main} ↑·2↓·1|✚ 1…1]`. This project
models the program's text logic and proves properties about it. It has three
parts, all from `main.go`:

- **The operation probe** (`gitState`, module `RepoState`, `repo_state.dfy`).
  It looks for git's marker files in priority order and picks the operation
  in progress: rebase-merge, rebase-apply, merge, cherry-pick, revert or
  bisect. For a rebase it also reads the step and total counters. It is
  modelled as a pure function, `Classify`. Its inputs are the set of markers
  that exist and the text of the counter files.
- **The status parser** (`parseStatus`, module `StatusParser`,
  `status_parser.dfy`). It reads the output of
  `git status --porcelain=2 --branch --show-stash`. The model is the method
  `ParseStatus`, whose loop updates one status record by record. It is proved
  equal to the fold `ParseLines` of the one-record step `ApplyRecord`. The
  fold's counting, last-header-wins and error properties are proved as
  lemmas.
- **The renderer** (`buildOutput`, module `Render`, `render.dfy`). The model
  is the method `BuildOutput`, which appends to one buffer as the program
  does. It is proved equal to `Render`, a section-wise definition of the
  line. Lemmas about `Render` cover:
  - the frame of the line;
  - the branch and tracking layout;
  - the clean symbol;
  - a round trip: reading the count groups back recovers the counts.

`text.dfy` (module `Text`) models the Go library calls the program relies on:
- `strings.Split` with a one-character separator, with `Join` as its inverse;
- `strings.TrimSpace`, using Go's `unicode.IsSpace` set;
- `strconv.Atoi`: an optional sign, decimal digits, and the 64-bit range;
- the `%d` verb, as `Decimal`.

`examples.dfy` (module `Examples`) parses and renders a whole report with
the default symbols. It also shows that a `UU` record counts as a conflict.

Modelling choices:
- **Panics become errors.** Where the program would panic on a record too
  short for the fields it indexes, the parser returns
  `MalformedRecord(record)`. The checks come in the order in which the Go
  code evaluates its indexing.
- **The detached-HEAD commit is a precondition.** `Commit[:7]` on a detached
  HEAD would panic if the commit id were shorter than seven characters. The
  renderer requires it to be at least that long (`Renderable`), because git
  always reports a full object id there.
- **Go's `State.State` field is named `Label`**, and Go's `int` is Dafny's
  `int`.
- **Indices count characters.** Go indexes strings by byte (`s[1][1]`,
  `Commit[:7]`). Dafny strings are sequences of characters, so the model
  indexes by character.
- **No trailing newline.** The program prints the line with `fmt.Print` at
  `main.go:107`, without a trailing newline, and the model follows it.

## Model

| member | source | states |
|---|---|---|
| Text.Split | main.go:229-230 | `strings.Split` yields at least one piece, and no piece contains the separator |
| Text.JoinSplit | main.go:229-230 | joining the pieces of a split with the separator gives back the original text |
| Text.SplitJoin | main.go:229-230 | splitting a join of separator-free pieces gives back exactly those pieces, empty ones included |
| Text.SplitAfterPiece | main.go:229-230 | a separator-free piece followed by the separator splits off as the first piece |
| Text.SplitNoSeparator | main.go:230 | a record without spaces is a single field |
| Text.TrimLeft | main.go:199 | the result is a suffix of the input that does not start with white space, and every removed character is white space |
| Text.TrimRight | main.go:199 | the result is a prefix of the input that does not end with white space, and every removed character is white space |
| Text.TrimSpace | main.go:199 | `strings.TrimSpace`: the result is the slice of the input that starts after its leading white space, neither starts nor ends with white space, and is followed only by white space |
| Text.Digits | main.go:295 | the decimal spelling of a natural number is non-empty, all digits, and has no leading zero unless the number is 0 |
| Text.DigitsValueOfDigits | main.go:295 | reading the decimal digits of n gives back n |
| Text.Atoi | main.go:199 | a parsed value lies in the 64-bit range, and the text starts with a digit or a sign |
| Text.Decimal | main.go:295 | `%d`: a minus sign exactly for a negative number, then only digits, with no leading zero unless the number is 0 |
| Text.AtoiDigits | main.go:199 | `Atoi` reads a natural number's decimal digits back as that number, up to the 64-bit maximum |
| Text.AtoiNegative | main.go:199 | `Atoi` reads a minus sign and the digits of m back as -m, down to the 64-bit minimum |
| Text.AtoiDecimal | main.go:239-243 | `Atoi` reads back whatever `%d` prints, for every 64-bit value |
| Text.AtoiRejectsNonDigit | main.go:247-250 | any character that is neither a digit nor a leading sign makes `Atoi` fail |
| Text.TrimSpaceDecimalLine | main.go:199 | `TrimSpace` strips the newline after a number in a counter file and leaves the number |
| RepoState.ReadInt | main.go:193-205 | a counter is read exactly when its file exists and its trimmed text parses as an integer, and then it is that integer |
| RepoState.RebaseState | main.go:134-146 | a rebase succeeds exactly when both counter files parse; the error names the first file that fails, step before total |
| RepoState.Classify | main.go:132-181 | the label is empty exactly when none of the six priority markers is present; only a rebase can fail; only a rebase or mailbox apply carries nonzero counters; with a rebase-merge directory the probe succeeds exactly when msgnum and end both read, reports them as step and total, and otherwise names msgnum if it fails and end if not; with only a rebase-apply directory the same holds for next and last |
| RepoState.FirstPresent | main.go:133-181 | reference for the switch's priority: the result is the first marker present in the order, and there is none exactly when no marker is present |
| RepoState.FirstPresentCascade | main.go:133-181 | the first present priority marker, unrolled into the order of the `case` clauses |
| RepoState.ClassifyWithoutOperation | main.go:132-133 | with no priority marker there is no operation and no error; an error means the first present marker is a rebase directory |
| RepoState.ClassifyLabel | main.go:147-180 | the counter files decide only whether the probe succeeds, never which label it reports |
| RepoState.OperationLabelOf | main.go:133-181 | the selected label belongs to the first present priority marker |
| RepoState.ClassifyFollowsPriority | main.go:133-181 | a successful probe reports a label of the first present marker, and that label belongs to no other marker |
| RepoState.OwnerOfLabel | main.go:36-46 | every label of a marker is owned by that marker |
| RepoState.LabelsExclusive | main.go:36-46 | two markers never share a label, so the label alone identifies the operation |
| RepoState.LowerPriorityIgnored | main.go:133-181 | adding a marker of lower priority than one already present leaves the result unchanged, including errors |
| RepoState.RebaseMergeLabels | main.go:147-151 | inside rebase-merge, the `interactive` marker selects REBASE-i, and otherwise REBASE-m |
| RepoState.RebaseApplyLabels | main.go:165-172 | inside rebase-apply, `rebasing` selects REBASE, then `applying` selects AM, and otherwise AM/REBASE |
| RepoState.ReadIntDecimalLine | main.go:193-205 | a counter file holding `%d` and a newline reads back as that number |
| RepoState.RebaseCountersRead | main.go:134-146 | a rebase-merge whose msgnum and end files hold numbers reports them as step and total |
| RepoState.RebaseApplyCountersRead | main.go:152-163 | a rebase-apply whose next and last files hold numbers reports them as step and total |
| StatusParser.Fields | main.go:230 | a record has at least one field, so the first field can always be read |
| StatusParser.ApplyRecord | main.go:231-269 | only a `#`, `1` or `2` record can be rejected; an accepted record never lowers a file counter and raises their sum by at most one |
| StatusParser.ParseLines | main.go:229-272 | only a non-empty report can fail; a successful parse never lowers a file counter and raises their sum by at most the number of records |
| StatusParser.ParseStatus | main.go:226-273 | the loop's result equals the fold of the per-record step over all records, starting from the zero status |
| StatusParser.RecordCounters | main.go:259-269 | an accepted record moves each file counter by one exactly when it is a record of that kind |
| StatusParser.ChangedRecordCountsOnce | main.go:259-266 | an accepted changed entry is exactly one of conflict, modified or staged, and changes only that counter |
| StatusParser.OtherRecordsIgnored | main.go:231-269 | `?` increments untracked only; records with other first fields, and the empty record after the final newline, change nothing |
| StatusParser.ParseCounts | main.go:229-270 | after a successful parse each file counter equals the number of records of its kind, and the three changed-entry counters add up to the number of changed entries |
| StatusParser.LastHeader | main.go:232-258 | the last header with a given key is a `#` record naming that key |
| StatusParser.BranchHeadersLastWins | main.go:234-245 | commit, branch and upstream come from the third field of the last header of their kind, or keep their start value |
| StatusParser.BranchRecord | main.go:234-245 | an accepted record sets commit, branch or upstream to its third field exactly when it is a header of that kind, and leaves it alone otherwise |
| StatusParser.NumericRecord | main.go:238-257 | an accepted record sets the stash count, or ahead and behind, exactly when it is a header of that kind, and leaves them alone otherwise |
| StatusParser.NumericHeadersLastWins | main.go:238-257 | the stash count is the last stash header's third field as an integer; ahead and behind are the last `branch.ab` header's third and fourth fields without their sign |
| StatusParser.ErrorIgnoresStatus | main.go:238-266 | whether a record is rejected, and with which error, does not depend on the status so far |
| StatusParser.NumericRecordErrors | main.go:238-257 | a stash header fails with its count's text exactly when `Atoi` rejects it; a `branch.ab` header fails with the ahead text exactly when that is rejected, and with the behind text exactly when ahead is accepted and behind is not; these errors come from no other record |
| StatusParser.MalformedOnlyWhenShort | main.go:230-266 | a malformed-record error names the record and arises only from a header or changed entry too short for the fields read; a `#`, `1` or `2` record with a single field, and a known header without its value, always are malformed |
| StatusParser.ParseFailsAtFirstBadRecord | main.go:229-257 | a parse fails exactly when some record is rejected on its own, and then with the error of the first such record |
| Render.Group | main.go:316-330 | a count group is empty exactly when the count is not positive, and otherwise starts with its symbol and has more after it |
| Render.Tracking | main.go:285-301 | the tracking text starts with a space, then the local marker when there is no upstream, or `{` when there is |
| Render.BranchSection | main.go:280-302 | detached: `:` and the first seven characters of the commit; otherwise the branch name followed by more text |
| Render.OperationSection | main.go:306-314 | the operation section is empty exactly when there is no label; otherwise it starts with the label and ends with the separator |
| Render.CountSection | main.go:316-334 | with all counts zero the section is the clean symbol; with staged files it starts with the staged symbol |
| Render.Render | main.go:276-339 | the line starts with the prefix and ends with the suffix, with room for the separator |
| Render.GroupDecodes | main.go:316-330 | a count group starts with its symbol, and the rest reads back with `Atoi` as the count |
| Render.WriteBranch | main.go:280-302 | appends exactly the branch section to the buffer |
| Render.WriteOperation | main.go:306-314 | appends exactly the operation section to the buffer |
| Render.WriteCounts | main.go:316-334 | appends exactly the count section to the buffer |
| Render.BuildOutput | main.go:276-339 | the built line is prefix, branch section, separator, operation section, count section and suffix |
| Render.RenderWithoutOperation | main.go:304-306 | with no operation, the count section follows the first separator directly |
| Render.RenderOperation | main.go:306-314 | during an operation, its label follows the first separator, then ` step/total` when the total is positive and nothing otherwise, then a second separator |
| Render.CounterShownOnlyWithTotal | main.go:306-311 | step and total change the line only when a label is present and the total is positive |
| Render.DetachedIgnoresTracking | main.go:280-281 | a detached HEAD shows `:` and the first seven characters of the commit; upstream, ahead and behind do not affect the line |
| Render.TrackingLayout | main.go:283-301 | without an upstream the local marker follows a space; without counts nothing follows the upstream; with both counts, one space and then the two groups with no space between |
| Render.OneSidedTracking | main.go:291-300 | with only ahead (or only behind) positive, only that group follows the space |
| Render.CleanExactlyWhenAllZero | main.go:316-334 | the count section is the clean symbol when all five counts are zero, and otherwise only the groups, in the fixed order |
| Render.ReadGroups | main.go:316-330 | reading back yields one count per symbol |
| Render.GroupsStart | main.go:316-330 | the groups start with the symbol of their first positive count, and are empty when no count is positive |
| Render.ReadOneGroup | main.go:316-317 | one group is read back as its count, leaving the rest untouched |
| Render.ReadGroupsRoundTrip | main.go:316-330 | reading back the groups of non-negative counts recovers every count, in order, when no symbol is a prefix of another and none starts with a digit |
| Render.CountSectionIsGroups | main.go:316-334 | the count section is the five groups followed by the clean part |
| Render.CountsRoundTrip | main.go:316-334 | rendering the count section and reading it back recovers staged, conflict, modified, untracked and stashed, for any symbol table that keeps the groups apart |
| Render.DefaultSymbolsSeparated | main.go:77-84 | the default count symbols keep the groups apart, and the clean symbol cannot be mistaken for a group |
| Examples.JoinAvoids | main.go:229 | a character absent from every piece and different from the separator is absent from the join |
| Examples.LineFields | main.go:230 | a record written from fields without spaces or newlines splits back into those fields |
| Examples.AheadBehindRecord | main.go:246-257 | `# branch.ab +2 -1` sets ahead 2 and behind 1 |
| Examples.ChangedRecord | main.go:259-263 | a `.M` entry counts as modified |
| Examples.BothModifiedIsConflict | main.go:259-261 | a `UU` entry counts as a conflict, not as modified or staged |
| Examples.ParseRecords | main.go:226-273 | the five example records, each ended by a newline, parse to a status with branch main, upstream origin/main, ahead 2, behind 1, one modified and one untracked file |
| Examples.FoldHeaders | main.go:232-257 | the three example headers, then the entries, fold to that status |
| Examples.FoldEntries | main.go:259-269 | the changed and untracked entries and the empty last record add one modified and one untracked file |
| Examples.ParseExample | main.go:226-273 | the example report, ending with a newline as git writes it, parses to that status |
| Examples.RenderExample | main.go:276-339 | that status renders with the default symbols as `[main {origin/main} ↑·2↓·1`, then the separator, then `✚ 1…1]` |

## Left out

- Command-line flags and printing (`main`, main.go:70-108) are not modelled. The defaults at main.go:73-84 are the constant `DEFAULT_SYMBOLS`. `log.Fatal` is replaced by the `Err` results of the parser and the probe.
- The two `git` invocations are not modelled. This includes exit status 128 meaning "not a repository" and the change of working directory (main.go:111-130, 208-223). The parser takes git's output as a string.
- The filesystem is not modelled. `pathExists` (main.go:187-190) is replaced by the set of markers that exist. `os.ReadFile` (main.go:194-197) is replaced by a map from counter file to its text, and a missing entry is a read failure. A stat error other than "does not exist", which the program treats as "exists", is folded into that set.
- Error messages are not modelled. The program wraps errors with text (`fmt.Errorf`); the model keeps only which error occurred and the record or counter file it concerns.
- Counter overflow is not modelled. The file and stash counters are unbounded integers, whereas Go's `int` would wrap after 2^63 - 1 increments. Values read with `Atoi` keep Go's 64-bit range check exactly.
- Render.Renderable: the detached-HEAD commit id must have at least seven characters. The program would panic on a shorter one instead of returning an error.
- Render.ReadGroupsRoundTrip and Render.CountsRoundTrip: the round trip is proved only for symbol tables whose count symbols are non-empty, start with a non-digit, and are not prefixes of one another. With other symbol tables the line can be ambiguous, for example two equal symbols.
- Repeated rendering gives identical output. This needs no lemma, because `Render` is a function.
- `symbols/symbols.go` is not part of this model.
