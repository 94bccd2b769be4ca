/** The in-progress operation of a repository, classified from the marker
    paths git leaves under `.git` (the switch in `gitState`). The file system is
    abstracted: `present` is the set of marker paths that exist, and `files`
    maps each step/total file that can be read to its text. */
module RepoState {
  import opened Text

  /** An operation label with its step counter; `Label == ""` means no
      operation is in progress, and Step/Total are 0 unless a rebase set them. */
  datatype State = State(Step: int, Total: int, Label: string)

  const REBASE_APPLY: string := "REBASE"
  const REBASE_MERGE: string := "REBASE-m"
  const REBASE_INTERACTIVE: string := "REBASE-i"
  const AM: string := "AM"
  const AM_REBASE: string := "AM/REBASE"
  const MERGING: string := "MERGING"
  const CHERRY_PICK: string := "CHERRY-PICKING"
  const REVERTING: string := "REVERTING"
  const BISECTING: string := "BISECTING"

  /** The marker paths whose presence the probe looks for. */
  datatype Marker =
    | RebaseMergeDir | InteractiveFile
    | RebaseApplyDir | RebasingFile | ApplyingFile
    | MergeHead | CherryPickHead | RevertHead | BisectLog

  function MarkerPath(m: Marker): string
  {
    match m
    case RebaseMergeDir => ".git/rebase-merge"
    case InteractiveFile => ".git/rebase-merge/interactive"
    case RebaseApplyDir => ".git/rebase-apply"
    case RebasingFile => ".git/rebase-apply/rebasing"
    case ApplyingFile => ".git/rebase-apply/applying"
    case MergeHead => ".git/MERGE_HEAD"
    case CherryPickHead => ".git/CHERRY_PICK_HEAD"
    case RevertHead => ".git/REVERT_HEAD"
    case BisectLog => ".git/BISECT_LOG"
  }

  /** The files holding a rebase's step and total. */
  datatype CounterFile = MsgNum | End | Next | Last

  function CounterPath(f: CounterFile): string
  {
    match f
    case MsgNum => ".git/rebase-merge/msgnum"
    case End => ".git/rebase-merge/end"
    case Next => ".git/rebase-apply/next"
    case Last => ".git/rebase-apply/last"
  }

  /** A step/total file that is missing or does not hold an integer. */
  datatype ProbeError = ReadFailed(file: CounterFile)

  /** `readInt`: the file's text, trimmed of white space, parsed by Atoi; a
      file absent from `files` is one that cannot be read. */
  function ReadInt(files: map<CounterFile, string>, f: CounterFile): (r: Option<int>)
    ensures r.Some? <==> f in files && Atoi(TrimSpace(files[f])).Some?
    ensures r.Some? ==> Atoi(TrimSpace(files[f])) == r
  {
    if f in files then Atoi(TrimSpace(files[f])) else None
  }

  /** The markers that select an operation, highest priority first. */
  const PRIORITY: seq<Marker> := [RebaseMergeDir, RebaseApplyDir, MergeHead, CherryPickHead, RevertHead, BisectLog]

  /** A rebase reads its step, then its total, and fails on the first file it
      cannot read. */
  function RebaseState(files: map<CounterFile, string>, stepFile: CounterFile, totalFile: CounterFile, name: string)
    : (r: Result<State, ProbeError>)
    ensures r.Ok? <==> ReadInt(files, stepFile).Some? && ReadInt(files, totalFile).Some?
    ensures r.Ok? ==> r.value == State(ReadInt(files, stepFile).value, ReadInt(files, totalFile).value, name)
    ensures r.Err? ==> r.error == ReadFailed(if ReadInt(files, stepFile).None? then stepFile else totalFile)
  {
    match ReadInt(files, stepFile)
    case None => Err(ReadFailed(stepFile))
    case Some(step) =>
      match ReadInt(files, totalFile)
      case None => Err(ReadFailed(totalFile))
      case Some(total) => Ok(State(step, total, name))
  }

  /** The prioritised switch of `gitState`. */
  function Classify(present: set<Marker>, files: map<CounterFile, string>): (r: Result<State, ProbeError>)
    ensures r.Ok? && r.value.Label == "" <==>
      !(RebaseMergeDir in present || RebaseApplyDir in present || MergeHead in present
        || CherryPickHead in present || RevertHead in present || BisectLog in present)
    ensures r.Err? ==> RebaseMergeDir in present || RebaseApplyDir in present
    ensures r.Ok? && (r.value.Step != 0 || r.value.Total != 0) ==>
      r.value.Label in {REBASE_INTERACTIVE, REBASE_MERGE, REBASE_APPLY, AM, AM_REBASE}
    // an interactive or merge rebase counts with msgnum and end
    ensures RebaseMergeDir in present ==>
      (r.Ok? <==> ReadInt(files, MsgNum).Some? && ReadInt(files, End).Some?)
    ensures r.Ok? && RebaseMergeDir in present ==>
      ReadInt(files, MsgNum) == Some(r.value.Step) && ReadInt(files, End) == Some(r.value.Total)
    ensures r.Err? && RebaseMergeDir in present ==>
      r.error == ReadFailed(if ReadInt(files, MsgNum).None? then MsgNum else End)
    // an apply-style rebase or mailbox apply counts with next and last
    ensures RebaseMergeDir !in present && RebaseApplyDir in present ==>
      (r.Ok? <==> ReadInt(files, Next).Some? && ReadInt(files, Last).Some?)
    ensures r.Ok? && RebaseMergeDir !in present && RebaseApplyDir in present ==>
      ReadInt(files, Next) == Some(r.value.Step) && ReadInt(files, Last) == Some(r.value.Total)
    ensures r.Err? && RebaseMergeDir !in present ==>
      r.error == ReadFailed(if ReadInt(files, Next).None? then Next else Last)
  {
    if RebaseMergeDir in present then
      RebaseState(files, MsgNum, End, if InteractiveFile in present then REBASE_INTERACTIVE else REBASE_MERGE)
    else if RebaseApplyDir in present then
      RebaseState(files, Next, Last,
        if RebasingFile in present then REBASE_APPLY
        else if ApplyingFile in present then AM
        else AM_REBASE)
    else if MergeHead in present then Ok(State(0, 0, MERGING))
    else if CherryPickHead in present then Ok(State(0, 0, CHERRY_PICK))
    else if RevertHead in present then Ok(State(0, 0, REVERTING))
    else if BisectLog in present then Ok(State(0, 0, BISECTING))
    else Ok(State(0, 0, ""))
  }

  // ---------------------------------------------------------------------------
  // A reference definition of the priority, and the classifier against it

  /** The first marker of `order` that is present. */
  function FirstPresent(order: seq<Marker>, present: set<Marker>): (r: Option<Marker>)
    ensures r.Some? ==> r.value in present && r.value in order
    ensures r.None? <==> forall i :: 0 <= i < |order| ==> order[i] !in present
  {
    if |order| == 0 then None
    else if order[0] in present then Some(order[0])
    else FirstPresent(order[1..], present)
  }

  /** The labels each priority marker can produce. */
  function LabelsOf(m: Marker): set<string>
  {
    match m
    case RebaseMergeDir => {REBASE_INTERACTIVE, REBASE_MERGE}
    case RebaseApplyDir => {REBASE_APPLY, AM, AM_REBASE}
    case MergeHead => {MERGING}
    case CherryPickHead => {CHERRY_PICK}
    case RevertHead => {REVERTING}
    case BisectLog => {BISECTING}
    case _ => {}
  }

  /** The marker that a non-empty label stands for. */
  function Owner(name: string): Option<Marker>
  {
    if name in {REBASE_INTERACTIVE, REBASE_MERGE} then Some(RebaseMergeDir)
    else if name in {REBASE_APPLY, AM, AM_REBASE} then Some(RebaseApplyDir)
    else if name == MERGING then Some(MergeHead)
    else if name == CHERRY_PICK then Some(CherryPickHead)
    else if name == REVERTING then Some(RevertHead)
    else if name == BISECTING then Some(BisectLog)
    else None
  }

  /** The first present priority marker, written as the cascade it unrolls to. */
  lemma {:induction false} FirstPresentCascade(present: set<Marker>)
    ensures FirstPresent(PRIORITY, present) ==
      if RebaseMergeDir in present then Some(RebaseMergeDir)
      else if RebaseApplyDir in present then Some(RebaseApplyDir)
      else if MergeHead in present then Some(MergeHead)
      else if CherryPickHead in present then Some(CherryPickHead)
      else if RevertHead in present then Some(RevertHead)
      else if BisectLog in present then Some(BisectLog)
      else None
  {
    var p := PRIORITY;
    assert p[1..] == [RebaseApplyDir, MergeHead, CherryPickHead, RevertHead, BisectLog];
    assert p[2..] == [MergeHead, CherryPickHead, RevertHead, BisectLog];
    assert p[3..] == [CherryPickHead, RevertHead, BisectLog];
    assert p[4..] == [RevertHead, BisectLog];
    assert p[5..] == [BisectLog];
    assert p[6..] == [];
    assert FirstPresent(p, present) == if RebaseMergeDir in present then Some(RebaseMergeDir) else FirstPresent(p[1..], present);
    assert FirstPresent(p[1..], present) == if RebaseApplyDir in present then Some(RebaseApplyDir) else FirstPresent(p[2..], present);
    assert FirstPresent(p[2..], present) == if MergeHead in present then Some(MergeHead) else FirstPresent(p[3..], present);
    assert FirstPresent(p[3..], present) == if CherryPickHead in present then Some(CherryPickHead) else FirstPresent(p[4..], present);
    assert FirstPresent(p[4..], present) == if RevertHead in present then Some(RevertHead) else FirstPresent(p[5..], present);
    assert FirstPresent(p[5..], present) == if BisectLog in present then Some(BisectLog) else FirstPresent(p[6..], present);
  }

  /** Every label of a marker is owned by that marker. */
  lemma OwnerOfLabel(m: Marker, name: string)
    requires name in LabelsOf(m)
    ensures Owner(name) == Some(m)
  {
  }

  /** With no operation marker present the classifier reports no operation,
      and it fails only when the first present marker is a rebase directory. */
  lemma ClassifyWithoutOperation(present: set<Marker>, files: map<CounterFile, string>)
    ensures FirstPresent(PRIORITY, present).None? ==> Classify(present, files) == Ok(State(0, 0, ""))
    ensures Classify(present, files).Err? ==>
      FirstPresent(PRIORITY, present) in {Some(RebaseMergeDir), Some(RebaseApplyDir)}
  {
    FirstPresentCascade(present);
  }

  /** The label the switch of `gitState` selects, whatever the counter files hold. */
  function OperationLabel(present: set<Marker>): string
  {
    if RebaseMergeDir in present then (if InteractiveFile in present then REBASE_INTERACTIVE else REBASE_MERGE)
    else if RebaseApplyDir in present then
      (if RebasingFile in present then REBASE_APPLY else if ApplyingFile in present then AM else AM_REBASE)
    else if MergeHead in present then MERGING
    else if CherryPickHead in present then CHERRY_PICK
    else if RevertHead in present then REVERTING
    else if BisectLog in present then BISECTING
    else ""
  }

  /** The counter files decide only whether the classifier succeeds, never
      the label it reports. */
  lemma ClassifyLabel(present: set<Marker>, files: map<CounterFile, string>)
    requires Classify(present, files).Ok?
    ensures Classify(present, files).value.Label == OperationLabel(present)
  {
  }

  /** The label selected for the first present marker is one of its labels. */
  lemma OperationLabelOf(present: set<Marker>, m: Marker)
    requires FirstPresent(PRIORITY, present) == Some(m)
    ensures OperationLabel(present) in LabelsOf(m)
  {
    FirstPresentCascade(present);
  }

  /** The classifier picks the first present marker in priority order: the
      label it reports is one of that marker's labels and of no other's. */
  lemma ClassifyFollowsPriority(present: set<Marker>, files: map<CounterFile, string>, m: Marker)
    requires FirstPresent(PRIORITY, present) == Some(m)
    requires Classify(present, files).Ok?
    ensures Classify(present, files).value.Label in LabelsOf(m)
    ensures Owner(Classify(present, files).value.Label) == Some(m)
  {
    ClassifyLabel(present, files);
    OperationLabelOf(present, m);
    OwnerOfLabel(m, OperationLabel(present));
  }

  /** The labels of different markers never coincide, so the label alone says
      which operation is in progress. */
  lemma LabelsExclusive(m: Marker, n: Marker, name: string)
    requires name in LabelsOf(m) && name in LabelsOf(n)
    ensures m == n
  {
    assert Owner(name) == Some(m);
  }

  /** A marker of lower priority than one that is present changes nothing. */
  lemma LowerPriorityIgnored(present: set<Marker>, files: map<CounterFile, string>, i: nat, j: nat)
    requires i < j < |PRIORITY| && PRIORITY[i] in present
    ensures Classify(present + {PRIORITY[j]}, files) == Classify(present, files)
  {
    var more := present + {PRIORITY[j]};
    forall k | 0 <= k < j
      ensures PRIORITY[k] in more <==> PRIORITY[k] in present
    {
    }
    assert InteractiveFile in more <==> InteractiveFile in present;
    assert RebasingFile in more <==> RebasingFile in present;
    assert ApplyingFile in more <==> ApplyingFile in present;
  }

  /** With a rebase-merge directory present, the interactive marker decides
      between an interactive and a merge rebase. */
  lemma RebaseMergeLabels(present: set<Marker>, files: map<CounterFile, string>)
    requires RebaseMergeDir in present
    requires Classify(present, files).Ok?
    ensures Classify(present, files).value.Label ==
      if InteractiveFile in present then REBASE_INTERACTIVE else REBASE_MERGE
  {
  }

  /** With only a rebase-apply directory present, the sub-markers decide
      between a plain rebase, a mailbox apply, and the ambiguous case. */
  lemma RebaseApplyLabels(present: set<Marker>, files: map<CounterFile, string>)
    requires RebaseMergeDir !in present && RebaseApplyDir in present
    requires Classify(present, files).Ok?
    ensures Classify(present, files).value.Label ==
      if RebasingFile in present then REBASE_APPLY
      else if ApplyingFile in present then AM
      else AM_REBASE
  {
  }

  /** A counter file holding git's own `%d\n` text reads back as that number. */
  lemma ReadIntDecimalLine(files: map<CounterFile, string>, f: CounterFile, n: int)
    requires MIN_INT64 <= n <= MAX_INT64
    requires f in files && files[f] == Decimal(n) + "\n"
    ensures ReadInt(files, f) == Some(n)
  {
    TrimSpaceDecimalLine(n);
    AtoiDecimal(n);
  }

  /** A rebase whose counter files hold git's own `%d\n` text reports those
      numbers as its step and total. */
  lemma RebaseCountersRead(present: set<Marker>, files: map<CounterFile, string>, step: int, total: int)
    requires MIN_INT64 <= step <= MAX_INT64 && MIN_INT64 <= total <= MAX_INT64
    requires RebaseMergeDir in present
    requires MsgNum in files && files[MsgNum] == Decimal(step) + "\n"
    requires End in files && files[End] == Decimal(total) + "\n"
    ensures Classify(present, files).Ok?
    ensures Classify(present, files).value.Step == step
    ensures Classify(present, files).value.Total == total
  {
    ReadIntDecimalLine(files, MsgNum, step);
    ReadIntDecimalLine(files, End, total);
  }

  /** The same for an apply-style rebase or mailbox apply, whose counters are
      next and last. */
  lemma RebaseApplyCountersRead(present: set<Marker>, files: map<CounterFile, string>, step: int, total: int)
    requires MIN_INT64 <= step <= MAX_INT64 && MIN_INT64 <= total <= MAX_INT64
    requires RebaseMergeDir !in present && RebaseApplyDir in present
    requires Next in files && files[Next] == Decimal(step) + "\n"
    requires Last in files && files[Last] == Decimal(total) + "\n"
    ensures Classify(present, files).Ok?
    ensures Classify(present, files).value.Step == step
    ensures Classify(present, files).value.Total == total
  {
    ReadIntDecimalLine(files, Next, step);
    ReadIntDecimalLine(files, Last, total);
  }
}
