/** The renderer (`buildOutput`): a status, an operation state and a symbol
    table turned into the one-line prompt text. */
module Render {
  import opened Text
  import opened StatusParser
  import opened RepoState

  /** The configurable display strings. */
  datatype Symbols = Symbols(
    Prefix: string,
    Suffix: string,
    Sep: string,
    Local: string,
    Ahead: string,
    Behind: string,
    Staged: string,
    Conflict: string,
    Modified: string,
    Untracked: string,
    Stashed: string,
    Clean: string)

  /** The command-line defaults of the symbol flags. */
  const DEFAULT_SYMBOLS: Symbols :=
    Symbols("[", "]", "|", "L", "↑·", "↓·", "● ", "✖ ", "✚ ", "…", "⚑ ", "✔")

  /** The branch name git reports for a detached HEAD. */
  const DETACHED: string := "(detached)"

  /** What the renderer needs of a status: a detached HEAD shows seven
      characters of the commit id, so the id must have that many. */
  predicate Renderable(st: Status)
  {
    st.Branch == DETACHED ==> |st.Commit| >= 7
  }

  // ---------------------------------------------------------------------------
  // The specification, section by section

  /** A symbol followed by its count, present only for a positive count. */
  function Group(symbol: string, count: int): (r: string)
    ensures count <= 0 <==> r == ""
    ensures count > 0 ==> |r| > |symbol| && r[..|symbol|] == symbol
  {
    if count > 0 then symbol + Decimal(count) else ""
  }

  /** A group can be read back: it starts with its symbol, and what follows
      the symbol is the count in a form `strconv.Atoi` accepts. */
  lemma GroupDecodes(symbol: string, count: int)
    requires 0 < count <= MAX_INT64
    ensures var g := Group(symbol, count);
      |g| > |symbol| && g[..|symbol|] == symbol && Atoi(g[|symbol|..]) == Some(count)
  {
    var d := Decimal(count);
    assert (symbol + d)[|symbol|..] == d;
    AtoiDecimal(count);
  }

  /** Upstream or local marker, then the ahead/behind groups. */
  function Tracking(st: Status, sym: Symbols): (r: string)
    ensures |r| >= 1 && r[0] == ' '
    ensures st.Upstream != "" ==> |r| >= 3 && r[1] == '{'
    ensures st.Upstream == "" ==> |r| >= 1 + |sym.Local| && r[1..1 + |sym.Local|] == sym.Local
  {
    (if st.Upstream == "" then " " + sym.Local else " {" + st.Upstream + "}")
    + (if st.Ahead > 0 || st.Behind > 0 then " " + Group(sym.Ahead, st.Ahead) + Group(sym.Behind, st.Behind) else "")
  }

  /** The branch section: `:` and the short commit id when detached, the branch
      name and its tracking otherwise. */
  function BranchSection(st: Status, sym: Symbols): (r: string)
    requires Renderable(st)
    ensures st.Branch == DETACHED ==> |r| == 8 && r[0] == ':' && r[1..] == st.Commit[..7]
    ensures st.Branch != DETACHED ==> |r| > |st.Branch| && r[..|st.Branch|] == st.Branch
  {
    if st.Branch == DETACHED then ":" + st.Commit[..7] else st.Branch + Tracking(st, sym)
  }

  /** The operation section: empty when no operation is in progress; otherwise
      its label, the step counter when a total is known, and a separator. */
  function OperationSection(state: State, sym: Symbols): (r: string)
    ensures r == "" <==> state.Label == ""
    ensures state.Label != "" ==>
      |r| >= |state.Label| + |sym.Sep| && r[..|state.Label|] == state.Label && r[|r| - |sym.Sep|..] == sym.Sep
  {
    if state.Label == "" then ""
    else
      state.Label
      + (if state.Total > 0 then " " + Decimal(state.Step) + "/" + Decimal(state.Total) else "")
      + sym.Sep
  }

  predicate AllClean(st: Status)
  {
    st.Staged == 0 && st.Conflict == 0 && st.Modified == 0 && st.Untracked == 0 && st.Stashed == 0
  }

  /** The five count groups in their fixed order, then the clean symbol when
      every count is zero. */
  function CountSection(st: Status, sym: Symbols): (r: string)
    ensures AllClean(st) ==> r == sym.Clean
    ensures st.Staged > 0 ==> |r| > |sym.Staged| && r[..|sym.Staged|] == sym.Staged
  {
    Group(sym.Staged, st.Staged) + Group(sym.Conflict, st.Conflict) + Group(sym.Modified, st.Modified)
    + Group(sym.Untracked, st.Untracked) + Group(sym.Stashed, st.Stashed)
    + (if AllClean(st) then sym.Clean else "")
  }

  /** The whole prompt text: it starts with the prefix and ends with the
      suffix, with room for the separator between them. */
  function Render(st: Status, state: State, sym: Symbols): (r: string)
    requires Renderable(st)
    ensures |r| >= |sym.Prefix| + |sym.Sep| + |sym.Suffix|
    ensures r[..|sym.Prefix|] == sym.Prefix && r[|r| - |sym.Suffix|..] == sym.Suffix
  {
    Framed(sym.Prefix, BranchSection(st, sym), sym.Sep, OperationSection(state, sym), CountSection(st, sym), sym.Suffix);
    sym.Prefix + BranchSection(st, sym) + sym.Sep + OperationSection(state, sym) + CountSection(st, sym) + sym.Suffix
  }

  // ---------------------------------------------------------------------------
  // The program: appends to one buffer

  lemma Regroup(a: string, b: string, c: string, d: string)
    ensures a + b + c + d == a + (b + c + d)
    ensures a + b + c + d == a + (b + (c + d))
  {
  }

  /** Lines 280-302 of `buildOutput`: the branch or detached commit, then the
      upstream or local marker and the ahead/behind groups. */
  method WriteBranch(b: string, status: Status, symbols: Symbols) returns (out: string)
    requires Renderable(status)
    ensures out == b + BranchSection(status, symbols)
  {
    out := b;
    if status.Branch == DETACHED {
      out := out + (":" + status.Commit[..7]);
      return;
    }
    out := out + status.Branch;
    ghost var named := out;
    ghost var upstream := if status.Upstream == "" then " " + symbols.Local else " {" + status.Upstream + "}";
    ghost var counters := if status.Ahead > 0 || status.Behind > 0
      then " " + Group(symbols.Ahead, status.Ahead) + Group(symbols.Behind, status.Behind) else "";
    if status.Upstream == "" {
      out := out + (" " + symbols.Local);
    } else {
      out := out + (" {" + status.Upstream + "}");
    }
    assert out == named + upstream;
    if status.Ahead > 0 || status.Behind > 0 {
      out := out + " ";
      if status.Ahead > 0 {
        out := out + (symbols.Ahead + Decimal(status.Ahead));
      }
      assert out == named + upstream + " " + Group(symbols.Ahead, status.Ahead);
      if status.Behind > 0 {
        out := out + (symbols.Behind + Decimal(status.Behind));
      }
      assert out == named + upstream + " " + Group(symbols.Ahead, status.Ahead) + Group(symbols.Behind, status.Behind);
      Regroup(named + upstream, " ", Group(symbols.Ahead, status.Ahead), Group(symbols.Behind, status.Behind));
    }
    assert out == b + status.Branch + upstream + counters;
    Regroup(b, status.Branch, upstream, counters);
  }

  /** Lines 306-314 of `buildOutput`: the operation label, its step counter and
      a second separator, only while an operation is in progress. */
  method WriteOperation(b: string, state: State, symbols: Symbols) returns (out: string)
    ensures out == b + OperationSection(state, symbols)
  {
    out := b;
    if state.Label != "" {
      ghost var steps := if state.Total > 0 then " " + Decimal(state.Step) + "/" + Decimal(state.Total) else "";
      out := out + state.Label;
      if state.Total > 0 {
        out := out + (" " + Decimal(state.Step) + "/" + Decimal(state.Total));
      } else {
        Dropped(out, "");
      }
      assert out == b + state.Label + steps;
      out := out + symbols.Sep;
      Regroup(b, state.Label, steps, symbols.Sep);
    }
  }

  /** Lines 316-334 of `buildOutput`: the count groups in their fixed order,
      then the clean symbol when every count is zero. */
  method WriteCounts(b: string, status: Status, symbols: Symbols) returns (out: string)
    ensures out == b + CountSection(status, symbols)
  {
    out := b;
    ghost var counts := Group(symbols.Staged, status.Staged);
    if status.Staged > 0 {
      out := out + (symbols.Staged + Decimal(status.Staged));
    }
    assert out == b + counts;
    Associate(b, counts, Group(symbols.Conflict, status.Conflict));
    if status.Conflict > 0 {
      out := out + (symbols.Conflict + Decimal(status.Conflict));
    }
    counts := counts + Group(symbols.Conflict, status.Conflict);
    assert out == b + counts;
    Associate(b, counts, Group(symbols.Modified, status.Modified));
    if status.Modified > 0 {
      out := out + (symbols.Modified + Decimal(status.Modified));
    }
    counts := counts + Group(symbols.Modified, status.Modified);
    assert out == b + counts;
    Associate(b, counts, Group(symbols.Untracked, status.Untracked));
    if status.Untracked > 0 {
      out := out + (symbols.Untracked + Decimal(status.Untracked));
    }
    counts := counts + Group(symbols.Untracked, status.Untracked);
    assert out == b + counts;
    Associate(b, counts, Group(symbols.Stashed, status.Stashed));
    if status.Stashed > 0 {
      out := out + (symbols.Stashed + Decimal(status.Stashed));
    }
    counts := counts + Group(symbols.Stashed, status.Stashed);
    assert out == b + counts;
    ghost var clean := if AllClean(status) then symbols.Clean else "";
    Associate(b, counts, clean);
    if status.Staged == 0 && status.Conflict == 0 && status.Modified == 0 && status.Untracked == 0 && status.Stashed == 0 {
      out := out + symbols.Clean;
    }
    assert out == b + counts + clean;
  }

  /** `buildOutput`: prefix, branch section, separator, operation section,
      count section and suffix, appended to one buffer in that order. */
  method BuildOutput(status: Status, state: State, symbols: Symbols) returns (out: string)
    requires Renderable(status)
    ensures out == Render(status, state, symbols)
  {
    var b := "";
    b := b + symbols.Prefix;
    b := WriteBranch(b, status, symbols);
    b := b + symbols.Sep;
    b := WriteOperation(b, state, symbols);
    b := WriteCounts(b, status, symbols);
    b := b + symbols.Suffix;
    out := b;
    Assembled(symbols.Prefix, BranchSection(status, symbols), symbols.Sep,
      OperationSection(state, symbols), CountSection(status, symbols), symbols.Suffix);
  }

  lemma Assembled(p: string, br: string, sep: string, op: string, cn: string, sx: string)
    ensures "" + p + br + sep + op + cn + sx == p + br + sep + op + cn + sx
  {
  }

  // ---------------------------------------------------------------------------
  // Properties of the rendered line

  /** Without an operation the count section follows the first separator. */
  lemma RenderWithoutOperation(st: Status, state: State, sym: Symbols)
    requires Renderable(st) && state.Label == ""
    ensures Render(st, state, sym) == sym.Prefix + BranchSection(st, sym) + sym.Sep + CountSection(st, sym) + sym.Suffix
  {
    assert OperationSection(state, sym) == "";
    Dropped(sym.Prefix + BranchSection(st, sym) + sym.Sep, CountSection(st, sym) + sym.Suffix);
  }

  lemma Dropped(h: string, t: string)
    ensures h + "" + t == h + t
  {
  }

  /** While an operation is in progress its label follows the first separator
      and a second separator closes its section. */
  lemma RenderOperation(st: Status, state: State, sym: Symbols)
    requires Renderable(st) && state.Label != ""
    ensures var steps := if state.Total > 0 then " " + Decimal(state.Step) + "/" + Decimal(state.Total) else "";
      Render(st, state, sym) == sym.Prefix + BranchSection(st, sym) + sym.Sep + state.Label + steps + sym.Sep + CountSection(st, sym) + sym.Suffix
  {
    var branch, op, counts := BranchSection(st, sym), OperationSection(state, sym), CountSection(st, sym);
    var steps := if state.Total > 0 then " " + Decimal(state.Step) + "/" + Decimal(state.Total) else "";
    assert op == state.Label + steps + sym.Sep;
    var head := sym.Prefix + branch + sym.Sep;
    assert Render(st, state, sym) == head + op + counts + sym.Suffix;
    Spliced(head, state.Label, steps, sym.Sep, counts, sym.Suffix);
  }

  lemma Framed(p: string, b: string, sep: string, o: string, c: string, s: string)
    ensures var r := p + b + sep + o + c + s;
      |r| >= |p| + |sep| + |s| && r[..|p|] == p && r[|r| - |s|..] == s
  {
    var r := p + b + sep + o + c + s;
    assert r == p + (b + sep + o + c + s);
    assert r == (p + b + sep + o + c) + s;
  }

  lemma Spliced(h: string, l: string, steps: string, sep: string, c: string, s: string)
    ensures h + (l + steps + sep) + c + s == h + l + steps + sep + c + s
  {
  }

  /** Step and total are shown only with a label and a positive total: without
      them the line is the one for no counter at all. */
  lemma CounterShownOnlyWithTotal(st: Status, state: State, sym: Symbols)
    requires Renderable(st)
    requires state.Label == "" || state.Total <= 0
    ensures Render(st, state, sym) == Render(st, State(0, 0, state.Label), sym)
  {
  }

  /** A detached HEAD shows `:` and the first seven characters of the commit;
      upstream, ahead and behind do not affect the line. */
  lemma DetachedIgnoresTracking(st: Status, state: State, sym: Symbols, upstream: string, ahead: int, behind: int)
    requires st.Branch == DETACHED && |st.Commit| >= 7
    ensures BranchSection(st, sym) == ":" + st.Commit[..7] && |BranchSection(st, sym)| == 8
    ensures Render(st, state, sym) == Render(st.(Upstream := upstream, Ahead := ahead, Behind := behind), state, sym)
  {
  }

  /** On a branch the tracking text is the local marker or the braced upstream,
      then the ahead and behind groups behind one space, with no space between
      the two groups. */
  lemma TrackingLayout(st: Status, sym: Symbols)
    requires st.Branch != DETACHED
    ensures st.Upstream == "" ==> BranchSection(st, sym)[..|st.Branch| + 1 + |sym.Local|] == st.Branch + " " + sym.Local
    ensures st.Ahead <= 0 && st.Behind <= 0 ==>
      BranchSection(st, sym) == st.Branch + (if st.Upstream == "" then " " + sym.Local else " {" + st.Upstream + "}")
    ensures st.Ahead > 0 && st.Behind > 0 ==>
      (BranchSection(st, sym) == st.Branch + (if st.Upstream == "" then " " + sym.Local else " {" + st.Upstream + "}")
        + " " + sym.Ahead + Decimal(st.Ahead) + sym.Behind + Decimal(st.Behind))
  {
    var upstream := if st.Upstream == "" then " " + sym.Local else " {" + st.Upstream + "}";
    if st.Ahead > 0 && st.Behind > 0 {
      calc {
        BranchSection(st, sym);
        st.Branch + (upstream + (" " + (sym.Ahead + Decimal(st.Ahead)) + (sym.Behind + Decimal(st.Behind))));
        { Regroup(st.Branch, upstream, " " + (sym.Ahead + Decimal(st.Ahead)), sym.Behind + Decimal(st.Behind)); }
        st.Branch + upstream + (" " + (sym.Ahead + Decimal(st.Ahead))) + (sym.Behind + Decimal(st.Behind));
        { Associate(st.Branch + upstream, " ", sym.Ahead + Decimal(st.Ahead));
          Associate(st.Branch + upstream + " ", sym.Ahead, Decimal(st.Ahead)); }
        st.Branch + upstream + " " + sym.Ahead + Decimal(st.Ahead) + (sym.Behind + Decimal(st.Behind));
        { Associate(st.Branch + upstream + " " + sym.Ahead + Decimal(st.Ahead), sym.Behind, Decimal(st.Behind)); }
        st.Branch + upstream + " " + sym.Ahead + Decimal(st.Ahead) + sym.Behind + Decimal(st.Behind);
      }
    }
    if st.Upstream == "" {
      var tail := if st.Ahead > 0 || st.Behind > 0 then " " + Group(sym.Ahead, st.Ahead) + Group(sym.Behind, st.Behind) else "";
      assert BranchSection(st, sym) == st.Branch + (" " + sym.Local + tail);
      Regroup(st.Branch, " ", sym.Local, tail);
    }
  }

  /** With only one of ahead and behind positive, only its group follows the
      space. */
  lemma OneSidedTracking(st: Status, sym: Symbols)
    requires st.Branch != DETACHED
    ensures st.Ahead > 0 && st.Behind <= 0 ==>
      (BranchSection(st, sym) == st.Branch + (if st.Upstream == "" then " " + sym.Local else " {" + st.Upstream + "}")
        + " " + sym.Ahead + Decimal(st.Ahead))
    ensures st.Ahead <= 0 && st.Behind > 0 ==>
      (BranchSection(st, sym) == st.Branch + (if st.Upstream == "" then " " + sym.Local else " {" + st.Upstream + "}")
        + " " + sym.Behind + Decimal(st.Behind))
  {
    var upstream := if st.Upstream == "" then " " + sym.Local else " {" + st.Upstream + "}";
    if st.Ahead > 0 && st.Behind <= 0 {
      assert BranchSection(st, sym) == st.Branch + (upstream + (" " + (sym.Ahead + Decimal(st.Ahead)) + ""));
      Regroup(st.Branch, upstream, " ", sym.Ahead + Decimal(st.Ahead));
      Associate(st.Branch + upstream + " ", sym.Ahead, Decimal(st.Ahead));
    }
    if st.Ahead <= 0 && st.Behind > 0 {
      assert BranchSection(st, sym) == st.Branch + (upstream + (" " + "" + (sym.Behind + Decimal(st.Behind))));
      assert " " + "" == " ";
      Regroup(st.Branch, upstream, " ", sym.Behind + Decimal(st.Behind));
      Associate(st.Branch + upstream + " ", sym.Behind, Decimal(st.Behind));
    }
  }

  /** The clean symbol is the whole count section exactly when all five counts
      are zero; otherwise the section holds only the groups of positive counts. */
  lemma CleanExactlyWhenAllZero(st: Status, sym: Symbols)
    ensures AllClean(st) ==> CountSection(st, sym) == sym.Clean
    ensures !AllClean(st) ==>
      (CountSection(st, sym) == Group(sym.Staged, st.Staged) + Group(sym.Conflict, st.Conflict)
        + Group(sym.Modified, st.Modified) + Group(sym.Untracked, st.Untracked) + Group(sym.Stashed, st.Stashed))
    ensures st.Staged > 0 ==> CountSection(st, sym)[..|sym.Staged|] == sym.Staged
  {
    if st.Staged > 0 {
      var rest := Group(sym.Conflict, st.Conflict) + Group(sym.Modified, st.Modified)
        + Group(sym.Untracked, st.Untracked) + Group(sym.Stashed, st.Stashed);
      assert CountSection(st, sym) == sym.Staged + (Decimal(st.Staged) + rest) by {
        assert !AllClean(st);
        assert CountSection(st, sym) == Group(sym.Staged, st.Staged) + Group(sym.Conflict, st.Conflict)
          + Group(sym.Modified, st.Modified) + Group(sym.Untracked, st.Untracked) + Group(sym.Stashed, st.Stashed);
        Associate(Group(sym.Staged, st.Staged), Group(sym.Conflict, st.Conflict), Group(sym.Modified, st.Modified));
        Associate(Group(sym.Staged, st.Staged), Group(sym.Conflict, st.Conflict) + Group(sym.Modified, st.Modified),
          Group(sym.Untracked, st.Untracked));
        Associate(Group(sym.Staged, st.Staged),
          Group(sym.Conflict, st.Conflict) + Group(sym.Modified, st.Modified) + Group(sym.Untracked, st.Untracked),
          Group(sym.Stashed, st.Stashed));
        Associate(sym.Staged, Decimal(st.Staged), rest);
      }
    }
  }

  // ---------------------------------------------------------------------------
  // Reading the count groups back

  predicate IsPrefix(p: string, s: string)
  {
    |p| <= |s| && s[..|p|] == p
  }

  /** Symbols the count groups can be told apart by: each is non-empty and
      starts with something other than a digit, and none is a prefix of another. */
  predicate Separated(symbols: seq<string>)
  {
    && (forall i :: 0 <= i < |symbols| ==> |symbols[i]| > 0 && !IsDigit(symbols[i][0]))
    && (forall i, j {:trigger IsPrefix(symbols[i], symbols[j])} ::
          0 <= i < |symbols| && 0 <= j < |symbols| && i != j ==> !IsPrefix(symbols[i], symbols[j]))
  }

  /** The groups of several symbols and counts, in order. */
  function Groups(symbols: seq<string>, counts: seq<int>): string
    requires |symbols| == |counts|
  {
    if |symbols| == 0 then "" else Group(symbols[0], counts[0]) + Groups(symbols[1..], counts[1..])
  }

  /** The length of the run of digits that `s` starts with. */
  function DigitRun(s: string): (k: nat)
    ensures k <= |s| && AllDigits(s[..k])
  {
    if |s| > 0 && IsDigit(s[0]) then 1 + DigitRun(s[1..]) else 0
  }

  /** Reads one optional group: the count after `symbol` when the text starts
      with it, and 0 when it does not; returns the unread rest too. */
  function ReadGroup(symbol: string, text: string): (nat, string)
  {
    if IsPrefix(symbol, text) then
      var t := text[|symbol|..];
      var k := DigitRun(t);
      (DigitsValue(t[..k]), t[k..])
    else (0, text)
  }

  /** Reads the groups of `symbols` in order. */
  function ReadGroups(symbols: seq<string>, text: string): (counts: seq<nat>)
    ensures |counts| == |symbols|
  {
    if |symbols| == 0 then []
    else
      var (n, rest) := ReadGroup(symbols[0], text);
      [n] + ReadGroups(symbols[1..], rest)
  }

  lemma {:induction false} DigitRunOf(d: string, rest: string)
    requires AllDigits(d)
    requires rest == "" || !IsDigit(rest[0])
    ensures DigitRun(d + rest) == |d|
    decreases |d|
  {
    if |d| > 0 {
      assert (d + rest)[1..] == d[1..] + rest;
      DigitRunOf(d[1..], rest);
    } else {
      assert d + rest == rest;
    }
  }

  /** Both prefixes of one text: the shorter is a prefix of the longer. */
  lemma PrefixesComparable(p: string, q: string, s: string)
    requires IsPrefix(p, s) && IsPrefix(q, s)
    ensures IsPrefix(p, q) || IsPrefix(q, p)
  {
    if |p| <= |q| {
      assert q[..|p|] == s[..|q|][..|p|];
    } else {
      assert p[..|q|] == s[..|p|][..|q|];
    }
  }

  /** The index of the first positive count, or `|counts|` when there is none. */
  function Lead(counts: seq<int>): (j: nat)
    ensures j <= |counts|
  {
    if |counts| == 0 then 0 else if counts[0] > 0 then 0 else 1 + Lead(counts[1..])
  }

  /** Groups start with the symbol of their first positive count, and there are
      none when no count is positive. */
  lemma {:induction false} GroupsStart(symbols: seq<string>, counts: seq<int>, tail: string)
    requires |symbols| == |counts|
    ensures Lead(counts) == |counts| ==> Groups(symbols, counts) == ""
    ensures Lead(counts) < |counts| ==> IsPrefix(symbols[Lead(counts)], Groups(symbols, counts) + tail)
    decreases |symbols|
  {
    if |symbols| > 0 {
      if counts[0] > 0 {
        FirstGroupPositive(symbols, counts, tail);
      } else {
        GroupsStart(symbols[1..], counts[1..], tail);
        FirstGroupEmpty(symbols, counts);
        var j := Lead(counts[1..]);
        if j < |counts[1..]| {
          assert symbols[1..][j] == symbols[Lead(counts)];
        }
      }
    }
  }

  lemma FirstGroupPositive(symbols: seq<string>, counts: seq<int>, tail: string)
    requires |symbols| == |counts| > 0 && counts[0] > 0
    ensures Lead(counts) == 0
    ensures IsPrefix(symbols[0], Groups(symbols, counts) + tail)
  {
    var rest := Groups(symbols[1..], counts[1..]);
    assert Groups(symbols, counts) + tail == Group(symbols[0], counts[0]) + (rest + tail);
    GroupHead(symbols[0], counts[0], rest + tail);
  }

  lemma FirstGroupEmpty(symbols: seq<string>, counts: seq<int>)
    requires |symbols| == |counts| > 0 && counts[0] <= 0
    ensures Lead(counts) == 1 + Lead(counts[1..])
    ensures Groups(symbols, counts) == Groups(symbols[1..], counts[1..])
  {
    assert Group(symbols[0], counts[0]) == "";
  }

  lemma GroupHead(symbol: string, n: int, rest: string)
    requires n > 0
    ensures IsPrefix(symbol, Group(symbol, n) + rest)
  {
    assert Group(symbol, n) + rest == symbol + (Decimal(n) + rest);
  }

  /** What follows the first group is empty or starts with another group's
      symbol or with the tail, so it starts with no digit, and after a missing
      first group it does not start with the first symbol either. */
  lemma NextGroupSafe(symbols: seq<string>, counts: seq<int>, tail: string)
    requires |symbols| == |counts| > 0 && Separated(symbols)
    requires tail == "" || !IsDigit(tail[0])
    requires forall i :: 0 <= i < |symbols| ==> !IsPrefix(symbols[i], tail)
    ensures var after := Groups(symbols[1..], counts[1..]) + tail;
      && (after == "" || !IsDigit(after[0]))
      && (counts[0] <= 0 ==> !IsPrefix(symbols[0], after))
  {
    var rest := Groups(symbols[1..], counts[1..]);
    var after := rest + tail;
    GroupsStart(symbols[1..], counts[1..], tail);
    var j := Lead(counts[1..]);
    if j == |counts[1..]| {
      assert after == tail;
    } else {
      assert IsPrefix(symbols[j + 1], after);
      assert after[0] == symbols[j + 1][0];
      if IsPrefix(symbols[0], after) {
        PrefixesComparable(symbols[0], symbols[j + 1], after);
        assert false;
      }
    }
  }

  /** One group is read back with the rest of the text untouched. */
  lemma ReadOneGroup(symbol: string, n: int, rest: string)
    requires n >= 0
    requires rest == "" || !IsDigit(rest[0])
    requires n == 0 ==> !IsPrefix(symbol, rest)
    ensures ReadGroup(symbol, Group(symbol, n) + rest) == (n, rest)
  {
    if n > 0 {
      var d := Digits(n);
      var text := symbol + d + rest;
      assert Group(symbol, n) + rest == text;
      assert IsPrefix(symbol, text);
      var t := text[|symbol|..];
      assert t == d + rest;
      DigitRunOf(d, rest);
      assert t[..|d|] == d;
      assert t[|d|..] == rest;
      DigitsValueOfDigits(n);
    } else {
      assert Group(symbol, n) + rest == rest;
    }
  }

  /** The first group is read back, leaving the groups after it and the tail. */
  lemma FirstGroupRead(symbols: seq<string>, counts: seq<int>, tail: string)
    requires |symbols| == |counts| > 0 && Separated(symbols) && counts[0] >= 0
    requires tail == "" || !IsDigit(tail[0])
    requires forall i :: 0 <= i < |symbols| ==> !IsPrefix(symbols[i], tail)
    ensures ReadGroup(symbols[0], Groups(symbols, counts) + tail) == (counts[0], Groups(symbols[1..], counts[1..]) + tail)
  {
    var after := Groups(symbols[1..], counts[1..]) + tail;
    assert Groups(symbols, counts) + tail == Group(symbols[0], counts[0]) + after;
    NextGroupSafe(symbols, counts, tail);
    ReadOneGroup(symbols[0], counts[0], after);
  }

  /** The conditions of the round trip hold again after the first group. */
  lemma ReadableRest(symbols: seq<string>, counts: seq<int>, tail: string)
    requires |symbols| == |counts| > 0 && Separated(symbols)
    requires forall i :: 0 <= i < |counts| ==> counts[i] >= 0
    requires forall i :: 0 <= i < |symbols| ==> !IsPrefix(symbols[i], tail)
    ensures Separated(symbols[1..])
    ensures forall i :: 0 <= i < |counts[1..]| ==> counts[1..][i] >= 0
    ensures forall i :: 0 <= i < |symbols[1..]| ==> !IsPrefix(symbols[1..][i], tail)
  {
    var t := symbols[1..];
    forall i, j | 0 <= i < |t| && 0 <= j < |t| && i != j
      ensures !IsPrefix(t[i], t[j])
    {
      assert t[i] == symbols[i + 1] && t[j] == symbols[j + 1];
      assert !IsPrefix(symbols[i + 1], symbols[j + 1]);
    }
    forall i | 0 <= i < |t|
      ensures !IsPrefix(t[i], tail)
    {
      assert t[i] == symbols[i + 1];
    }
  }

  lemma ReadGroupsStep(symbols: seq<string>, text: string)
    requires |symbols| > 0
    ensures ReadGroups(symbols, text) ==
      [ReadGroup(symbols[0], text).0] + ReadGroups(symbols[1..], ReadGroup(symbols[0], text).1)
  {
  }

  /** Reading the groups back gives the counts, provided the symbols can be
      told apart and what follows cannot be mistaken for a group or a digit. */
  lemma {:induction false} ReadGroupsRoundTrip(symbols: seq<string>, counts: seq<int>, tail: string)
    requires |symbols| == |counts| && Separated(symbols)
    requires forall i :: 0 <= i < |counts| ==> counts[i] >= 0
    requires tail == "" || !IsDigit(tail[0])
    requires forall i :: 0 <= i < |symbols| ==> !IsPrefix(symbols[i], tail)
    ensures ReadGroups(symbols, Groups(symbols, counts) + tail) == counts
    decreases |symbols|
  {
    if |symbols| > 0 {
      FirstGroupRead(symbols, counts, tail);
      ReadableRest(symbols, counts, tail);
      ReadGroupsRoundTrip(symbols[1..], counts[1..], tail);
      ReadGroupsStep(symbols, Groups(symbols, counts) + tail);
      assert [counts[0]] + counts[1..] == counts;
    }
  }

  function CountSymbols(sym: Symbols): seq<string>
  {
    [sym.Staged, sym.Conflict, sym.Modified, sym.Untracked, sym.Stashed]
  }

  function Counts(st: Status): seq<int>
  {
    [st.Staged, st.Conflict, st.Modified, st.Untracked, st.Stashed]
  }

  /** The count section is the five groups followed by the clean part. */
  lemma CountSectionIsGroups(st: Status, sym: Symbols)
    ensures CountSection(st, sym) == Groups(CountSymbols(sym), Counts(st)) + (if AllClean(st) then sym.Clean else "")
  {
    var ss, cs := CountSymbols(sym), Counts(st);
    var g0, g1, g2, g3, g4 := Group(ss[0], cs[0]), Group(ss[1], cs[1]), Group(ss[2], cs[2]), Group(ss[3], cs[3]), Group(ss[4], cs[4]);
    assert ss[4..][1..] == [] && cs[4..][1..] == [];
    assert Groups(ss[4..], cs[4..]) == g4;
    assert ss[3..][1..] == ss[4..] && cs[3..][1..] == cs[4..];
    assert Groups(ss[3..], cs[3..]) == g3 + g4;
    assert ss[2..][1..] == ss[3..] && cs[2..][1..] == cs[3..];
    assert Groups(ss[2..], cs[2..]) == g2 + (g3 + g4);
    assert ss[1..][1..] == ss[2..] && cs[1..][1..] == cs[2..];
    assert Groups(ss[1..], cs[1..]) == g1 + (g2 + (g3 + g4));
    assert Groups(ss, cs) == g0 + (g1 + (g2 + (g3 + g4)));
    Regroup(g0, g1, g2, g3 + g4);
    Associate(g0 + g1 + g2, g3, g4);
  }

  /** Rendering then reading the count section back recovers the five counts
      in their fixed order, for any symbol table whose count symbols can be told
      apart and whose clean symbol cannot be mistaken for a group. */
  lemma CountsRoundTrip(st: Status, sym: Symbols)
    requires Separated(CountSymbols(sym))
    requires sym.Clean == "" || !IsDigit(sym.Clean[0])
    requires forall i :: 0 <= i < 5 ==> !IsPrefix(CountSymbols(sym)[i], sym.Clean)
    requires st.Staged >= 0 && st.Conflict >= 0 && st.Modified >= 0 && st.Untracked >= 0 && st.Stashed >= 0
    ensures ReadGroups(CountSymbols(sym), CountSection(st, sym)) == Counts(st)
  {
    CountSectionIsGroups(st, sym);
    var tail := if AllClean(st) then sym.Clean else "";
    assert forall i :: 0 <= i < 5 ==> !IsPrefix(CountSymbols(sym)[i], tail);
    ReadGroupsRoundTrip(CountSymbols(sym), Counts(st), tail);
  }

  /** The default symbols meet the conditions of the round trip. */
  lemma DefaultSymbolsSeparated()
    ensures Separated(CountSymbols(DEFAULT_SYMBOLS))
    ensures forall i :: 0 <= i < 5 ==> !IsPrefix(CountSymbols(DEFAULT_SYMBOLS)[i], DEFAULT_SYMBOLS.Clean)
  {
  }
}
