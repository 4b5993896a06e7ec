/**
 * The `fill_it` driver: the control file (INPUT, PUNCH, GROUP, ALL and
 * SUBCASES sections), the comma-separated parameter lines, the fastener
 * group files and the name of each group's results file.
 *
 * File contents are parameters: a control file or a group file is the
 * sequence of its lines. The model of the run starts from a filled-hole
 * model whose node maps are already built.
 */
module FillIt {
  import opened Runtime
  import opened Text
  import FH = FhModel

  // ---------------------------------------------------------------------
  // `parse_comma`
  // ---------------------------------------------------------------------

  /** `find_first_not_of(c)`: the first index of a character other than `c`, or -1 (npos). */
  function FirstNot(s: string, c: char): (r: int)
    ensures r == -1 || (0 <= r < |s| && s[r] != c)
    ensures r == -1 ==> forall i :: 0 <= i < |s| ==> s[i] == c
    ensures r != -1 ==> forall i :: 0 <= i < r ==> s[i] == c
  {
    if s == [] then -1
    else if s[0] != c then 0
    else
      var r := FirstNot(s[1..], c);
      assert forall i :: 1 <= i < |s| ==> s[i] == s[1..][i - 1];
      if r == -1 then -1 else r + 1
  }

  /** The pieces of `s` from offset `from` on, cut at every comma, empty pieces included. */
  function SplitAt(s: string, from: nat): (r: seq<string>)
    requires from <= |s|
    ensures |r| >= 1
    decreases |s| - from
  {
    var p := FindFrom(s, ',', from);
    if p == -1 then [s[from..]] else [s[from..p]] + SplitAt(s, p + 1)
  }

  /** One cut: the piece up to the next comma, then the pieces after it. */
  lemma SplitAtStep(s: string, from: nat, p: nat)
    requires from <= p < |s| && FindFrom(s, ',', from) == p
    ensures SplitAt(s, from) == [s[from..p]] + SplitAt(s, p + 1)
  {
  }

  /** The pieces joined again with a comma between each two. */
  function Join(fs: seq<string>): string
    requires |fs| >= 1
  {
    if |fs| == 1 then fs[0] else fs[0] + "," + Join(fs[1..])
  }

  /** The fields `parse_comma` returns: none for a line of commas only, else the pieces after the leading commas. */
  function CommaFields(s: string): (r: seq<string>)
    ensures r == [] <==> forall i :: 0 <= i < |s| ==> s[i] == ','
  {
    var f := FirstNot(s, ',');
    if f == -1 then [] else SplitAt(s, f)
  }

  /** Joining the pieces gives the text back. */
  lemma {:induction false} JoinSplit(s: string, from: nat)
    requires from <= |s|
    ensures Join(SplitAt(s, from)) == s[from..]
    decreases |s| - from
  {
    var p := FindFrom(s, ',', from);
    if p != -1 {
      JoinSplit(s, p + 1);
      assert s[from..] == s[from..p] + "," + s[p + 1..];
    }
  }

  /** No piece holds a comma. */
  lemma {:induction false} SplitHasNoComma(s: string, from: nat)
    requires from <= |s|
    ensures forall i :: 0 <= i < |SplitAt(s, from)| ==> ',' !in SplitAt(s, from)[i]
    decreases |s| - from
  {
    var p := FindFrom(s, ',', from);
    if p != -1 {
      SplitHasNoComma(s, p + 1);
      assert ',' !in s[from..p];
    }
  }

  /** The number of commas in `s` from offset `from` on. */
  function Commas(s: string, from: nat): nat
    requires from <= |s|
    decreases |s| - from
  {
    if from == |s| then 0 else (if s[from] == ',' then 1 else 0) + Commas(s, from + 1)
  }

  /** A stretch without commas adds none to the count. */
  lemma {:induction false} CommasSkip(s: string, from: nat, to: nat)
    requires from <= to <= |s| && forall i :: from <= i < to ==> s[i] != ','
    ensures Commas(s, from) == Commas(s, to)
    decreases |s| - from
  {
    if from < to {
      CommasSkip(s, from + 1, to);
    }
  }

  /** One more piece than there are commas. */
  lemma {:induction false} SplitCount(s: string, from: nat)
    requires from <= |s|
    ensures |SplitAt(s, from)| == Commas(s, from) + 1
    decreases |s| - from
  {
    var p := FindFrom(s, ',', from);
    if p == -1 {
      CommasSkip(s, from, |s|);
    } else {
      SplitAtStep(s, from, p);
      SplitCount(s, p + 1);
      CommasSkip(s, from, p);
    }
  }

  /** The search for a comma from the start of a comma-free piece stops right after it. */
  lemma FindAfterPiece(t: string, n: nat, piece: string)
    requires n + |piece| <= |t| && t[n..n + |piece|] == piece && ',' !in piece
    requires n + |piece| == |t| || t[n + |piece|] == ','
    ensures FindFrom(t, ',', n) == if n + |piece| == |t| then -1 else n + |piece|
  {
    forall i | n <= i < n + |piece| ensures t[i] != ',' {
      assert t[i] == piece[i - n];
    }
  }

  /** No piece holds a comma, stated piece by piece from the front. */
  predicate CommaFree(fs: seq<string>)
    decreases |fs|
  {
    fs == [] || (',' !in fs[0] && CommaFree(fs[1..]))
  }

  /** `CommaFree` holds exactly when no piece holds a comma. */
  lemma {:induction false} CommaFreeAll(fs: seq<string>)
    ensures CommaFree(fs) <==> forall i :: 0 <= i < |fs| ==> ',' !in fs[i]
    decreases |fs|
  {
    if fs != [] {
      CommaFreeAll(fs[1..]);
      assert forall i :: 1 <= i < |fs| ==> fs[i] == fs[1..][i - 1];
    }
  }

  /** The first piece after the prefix is found whole, ended by a comma or by the end of the text. */
  lemma {:induction false} FirstPiece(prefix: string, fs: seq<string>)
    requires |fs| >= 1 && ',' !in fs[0]
    ensures var t := prefix + Join(fs); var m := |prefix| + |fs[0]|;
      m <= |t| && t[|prefix|..m] == fs[0]
      && FindFrom(t, ',', |prefix|) == (if |fs| == 1 then -1 else m)
      && (|fs| > 1 ==> t == (prefix + fs[0] + ",") + Join(fs[1..]))
  {
    var t := prefix + Join(fs);
    if |fs| > 1 {
      assert t == (prefix + fs[0] + ",") + Join(fs[1..]);
    } else {
      assert t == prefix + fs[0];
    }
    assert t[|prefix|..|prefix| + |fs[0]|] == fs[0];
    FindAfterPiece(t, |prefix|, fs[0]);
  }

  /** Splitting comma-free pieces joined with commas, after any prefix, gives the pieces back. */
  lemma {:induction false} SplitJoin(prefix: string, fs: seq<string>)
    requires |fs| >= 1 && CommaFree(fs)
    ensures SplitAt(prefix + Join(fs), |prefix|) == fs
    decreases |fs|
  {
    if |fs| > 1 {
      var prefix', rest := prefix + fs[0] + ",", fs[1..];
      JoinFirst(prefix, fs);
      SplitJoin(prefix', rest);
      assert [fs[0]] + rest == fs;
    } else {
      FirstPiece(prefix, fs);
      assert SplitAt(prefix + Join(fs), |prefix|) == [fs[0]];
    }
  }

  /** The first of several pieces is cut off at its comma; the rest of the text starts after it. */
  lemma JoinFirst(prefix: string, fs: seq<string>)
    requires |fs| > 1 && ',' !in fs[0]
    ensures var prefix' := prefix + fs[0] + ",";
      prefix + Join(fs) == prefix' + Join(fs[1..])
      && SplitAt(prefix + Join(fs), |prefix|) == [fs[0]] + SplitAt(prefix' + Join(fs[1..]), |prefix'|)
  {
    var t, m := prefix + Join(fs), |prefix| + |fs[0]|;
    var prefix' := prefix + fs[0] + ",";
    FirstPiece(prefix, fs);
    var head := t[|prefix|..m];
    assert head == fs[0];
    assert t == prefix' + Join(fs[1..]) && |prefix'| == m + 1;
    SplitAtStep(t, |prefix|, m);
  }

  /** A line read back: the fields joined with commas are the line after its leading commas. */
  lemma CommaFieldsRoundTrip(s: string)
    requires CommaFields(s) != []
    ensures forall i :: 0 <= i < FirstNot(s, ',') ==> s[i] == ','
    ensures Join(CommaFields(s)) == s[FirstNot(s, ',')..]
    ensures |CommaFields(s)| == Commas(s, FirstNot(s, ',')) + 1
    ensures forall i :: 0 <= i < |CommaFields(s)| ==> ',' !in CommaFields(s)[i]
  {
    var f := FirstNot(s, ',');
    JoinSplit(s, f);
    SplitCount(s, f);
    SplitHasNoComma(s, f);
  }

  /** A line written from comma-free fields, the first not empty, parses back to those fields. */
  lemma CommaFieldsOfJoin(fs: seq<string>)
    requires |fs| >= 1 && fs[0] != [] && forall i :: 0 <= i < |fs| ==> ',' !in fs[i]
    ensures CommaFields(Join(fs)) == fs
  {
    var t := Join(fs);
    if |fs| > 1 {
      assert t == fs[0] + "," + Join(fs[1..]);
    }
    assert t[0] == fs[0][0] != ',';
    assert FirstNot(t, ',') == 0;
    CommaFreeAll(fs);
    SplitJoin("", fs);
    assert "" + t == t;
  }

  /** `parse_comma`: skip the leading commas, then cut at each comma. */
  method ParseComma(s: string) returns (r: seq<string>)
    ensures r == CommaFields(s)
  {
    r := [];
    var first := FirstNot(s, ',');
    if first == -1 {
      return;
    }
    var second := FindFrom(s, ',', first);
    while second != -1
      invariant 0 <= first <= |s|
      invariant second == FindFrom(s, ',', first)
      invariant r + SplitAt(s, first) == CommaFields(s)
      decreases |s| - first
    {
      SplitAtStep(s, first, second);
      Assoc(r, [s[first..second]], SplitAt(s, second + 1));
      r := r + [s[first..second]];
      first := second + 1;
      second := FindFrom(s, ',', first);
    }
    r := r + [s[first..]];
  }

  // ---------------------------------------------------------------------
  // `remove_file_extension` and the results file name
  // ---------------------------------------------------------------------

  /** `remove_file_extension`: everything before the last dot, or the whole name when it has none. */
  function RemoveFileExtension(s: string): (r: string)
    ensures '.' !in s ==> r == s
    ensures '.' in s ==> |r| < |s| && r == s[..|r|] && s[|r|] == '.' && '.' !in s[|r| + 1..]
  {
    var last := FindLast(s, '.');
    if last == -1 then s else s[..last]
  }

  /** The results file of a group: its name without extension, then `.res`. */
  function OutputName(group: string): string
  {
    RemoveFileExtension(group) + ".res"
  }

  /** The results file name keeps the group's stem: removing its extension gives that stem back. */
  lemma OutputNameStem(group: string)
    ensures RemoveFileExtension(OutputName(group)) == RemoveFileExtension(group)
  {
    var stem := RemoveFileExtension(group);
    var t := stem + ".res";
    assert t[|stem|] == '.';
    var last := FindLast(t, '.');
    assert forall j :: |stem| < j < |t| ==> t[j] == ".res"[j - |stem|];
    assert last == |stem|;
    assert t[..last] == stem;
  }

  // ---------------------------------------------------------------------
  // The control file
  // ---------------------------------------------------------------------

  /** The input file name before an INPUT section names one. */
  const Unset: string := "HELLO WORLD"

  /** The five sections of a control file. */
  datatype Section = Input | Punch | Group | All | Subcases

  /** The keyword that opens a section. */
  function Name(k: Section): string
  {
    match k
    case Input => "INPUT"
    case Punch => "PUNCH"
    case Group => "GROUP"
    case All => "ALL"
    case Subcases => "SUBCASES"
  }

  /** A control line without its spaces: a section keyword, blank, or a value. */
  datatype Word = Keyword(section: Section) | Blank | Value

  /** What a line without spaces is. */
  function WordOf(line: string): (w: Word)
    ensures w == Blank <==> line == ""
    ensures w.Keyword? ==> line == Name(w.section)
    ensures w == Value ==> line != "" && forall k: Section :: line != Name(k)
  {
    if line == "" then Blank
    else if line == "INPUT" then Keyword(Input)
    else if line == "PUNCH" then Keyword(Punch)
    else if line == "GROUP" then Keyword(Group)
    else if line == "ALL" then Keyword(All)
    else if line == "SUBCASES" then Keyword(Subcases)
    else Value
  }

  /** A line ends the section `own`: a blank line, or the keyword of another section. */
  predicate Closes(w: Word, own: Section)
  {
    w == Blank || (w.Keyword? && w.section != own)
  }

  /** The five section flags (`input_flag`, `punch_flag`, `group_flag`, `all_flag`, `subcase_flag`). */
  datatype Flags = Flags(input: bool, punch: bool, group: bool, all: bool, subcases: bool)

  /** No section open. */
  const NoFlags: Flags := Flags(false, false, false, false, false)

  /** The parameters read so far and the section flags. */
  datatype Control = Control(inputFile: string, punchFiles: seq<string>, groupFiles: seq<string>,
                             allParam: string, subcases: seq<int>, open: Flags)

  /** Before the first line: no files, no flag. */
  function ControlStart(): Control
  {
    Control(Unset, [], [], "", [], NoFlags)
  }

  /** At most one section is open. */
  predicate AtMostOne(f: Flags)
  {
    && (f.input ==> !f.punch && !f.group && !f.all && !f.subcases)
    && (f.punch ==> !f.group && !f.all && !f.subcases)
    && (f.group ==> !f.all && !f.subcases)
    && (f.all ==> !f.subcases)
  }

  /** The flag of section `k`. */
  function IsOpen(f: Flags, k: Section): bool
  {
    match k
    case Input => f.input
    case Punch => f.punch
    case Group => f.group
    case All => f.all
    case Subcases => f.subcases
  }

  /** The subcase IDs of one SUBCASES line: each comma field without spaces, read with `atol`. */
  function SubcaseValues(lc: Libc, line: string): seq<int>
  {
    var fs := CommaFields(line);
    seq(|fs|, i requires 0 <= i < |fs| => lc.atol(RemoveSpaces(fs[i])))
  }

  /** The keyword tests at the end of the loop body: a keyword opens its section. */
  function Opened(f: Flags, w: Word): Flags
  {
    match w
    case Keyword(Input) => f.(input := true)
    case Keyword(Punch) => f.(punch := true)
    case Keyword(Group) => f.(group := true)
    case Keyword(All) => f.(all := true)
    case Keyword(Subcases) => f.(subcases := true)
    case _ => f
  }

  /**
   * The open section that takes a control line as its value: the sections
   * are tried in the order INPUT, PUNCH, GROUP, ALL, SUBCASES, and an open
   * one takes the line unless the line closes it.
   */
  function Taker(f: Flags, w: Word): Option<Section>
  {
    if f.input && !Closes(w, Input) then Some(Input)
    else if f.punch && !Closes(w, Punch) then Some(Punch)
    else if f.group && !Closes(w, Group) then Some(Group)
    else if f.all && !Closes(w, All) then Some(All)
    else if f.subcases && !Closes(w, Subcases) then Some(Subcases)
    else None
  }

  /**
   * The flags after a control line: each section tried and closed by the
   * line is cleared; INPUT and ALL close once they take their one value;
   * a line no section takes is tested against the keywords.
   */
  function NextFlags(f: Flags, w: Word): (r: Flags)
    ensures AtMostOne(f) ==> AtMostOne(r)
  {
    if f.input && !Closes(w, Input) then f.(input := false)
    else
      var f1 := f.(input := false);
      if f1.punch && !Closes(w, Punch) then f1
      else
        var f2 := f1.(punch := false);
        if f2.group && !Closes(w, Group) then f2
        else
          var f3 := f2.(group := false);
          if f3.all && !Closes(w, All) then f3.(all := false)
          else
            var f4 := f3.(all := false);
            if f4.subcases && !Closes(w, Subcases) then f4
            else Opened(f4.(subcases := false), w)
  }

  /** One control line, its spaces removed: the taking section records it and the flags move on. */
  function ControlStep(lc: Libc, c: Control, line: string): Control
  {
    var w := WordOf(line);
    var next := c.(open := NextFlags(c.open, w));
    match Taker(c.open, w)
    case Some(Input) => next.(inputFile := line)
    case Some(Punch) => next.(punchFiles := c.punchFiles + [line])
    case Some(Group) => next.(groupFiles := c.groupFiles + [line])
    case Some(All) => next.(allParam := line)
    case Some(Subcases) => next.(subcases := c.subcases + SubcaseValues(lc, line))
    case None => next
  }

  /** The state after the lines of the control file, in order. */
  function ControlAll(lc: Libc, lines: seq<string>): Control
  {
    if lines == [] then ControlStart()
    else ControlStep(lc, ControlAll(lc, lines[..|lines| - 1]), RemoveSpaces(lines[|lines| - 1]))
  }

  /** Whatever the control file holds, at most one section is open at a time. */
  lemma {:induction false} OneSectionAtATime(lc: Libc, lines: seq<string>)
    ensures AtMostOne(ControlAll(lc, lines).open)
  {
    if lines != [] {
      OneSectionAtATime(lc, lines[..|lines| - 1]);
    }
  }

  /** A section takes a line only while it is open, and never a blank line or another section's keyword. */
  lemma TakerOpen(f: Flags, w: Word)
    ensures Taker(f, w).Some? ==> IsOpen(f, Taker(f, w).value) && !Closes(w, Taker(f, w).value)
    ensures Taker(f, w).None? ==> NextFlags(f, w) == Opened(NoFlags, w)
  {
  }

  /** A section is open after a line only if it was open before or the line is its keyword; INPUT only on its keyword. */
  lemma StepFlags(f: Flags, w: Word)
    ensures var r := NextFlags(f, w);
      && (r.input ==> w == Keyword(Input))
      && (r.punch ==> f.punch || w == Keyword(Punch))
      && (r.group ==> f.group || w == Keyword(Group))
      && (r.all ==> f.all || w == Keyword(All))
      && (r.subcases ==> f.subcases || w == Keyword(Subcases))
  {
    OpenedOnly(f.(input := false, punch := false, group := false, all := false, subcases := false), w);
  }

  /** A keyword opens only its own section. */
  lemma OpenedOnly(f: Flags, w: Word)
    ensures var r := Opened(f, w);
      && (r.input ==> f.input || w == Keyword(Input))
      && (r.punch ==> f.punch || w == Keyword(Punch))
      && (r.group ==> f.group || w == Keyword(Group))
      && (r.all ==> f.all || w == Keyword(All))
      && (r.subcases ==> f.subcases || w == Keyword(Subcases))
  {
  }

  /** A blank line closes the open section and records nothing. */
  lemma BlankLineCloses(lc: Libc, c: Control, raw: string)
    requires IsBlank(raw)
    ensures ControlStep(lc, c, RemoveSpaces(raw)) == c.(open := NoFlags)
  {
    RemoveSpacesOfBlank(raw);
  }

  /** Another section's keyword closes the open section and opens its own, recording nothing. */
  lemma KeywordOpensSection(lc: Libc, c: Control, line: string, k: Section)
    requires AtMostOne(c.open) && line == Name(k) && !IsOpen(c.open, k)
    ensures var r := ControlStep(lc, c, line);
      r == c.(open := Opened(NoFlags, Keyword(k))) && forall j: Section :: IsOpen(r.open, j) <==> j == k
  {
    assert WordOf(line) == Keyword(k);
  }

  /** A section's own keyword inside it is not a keyword: PUNCH within PUNCH is taken as a punch file name. */
  lemma OwnKeywordIsValue(lc: Libc, c: Control)
    requires AtMostOne(c.open) && c.open.punch
    ensures ControlStep(lc, c, "PUNCH") == c.(punchFiles := c.punchFiles + ["PUNCH"])
  {
    assert WordOf("PUNCH") == Keyword(Punch);
  }

  /** A line outside every section that is not a keyword is ignored. */
  lemma StrayLineIgnored(lc: Libc, c: Control, line: string)
    requires c.open == NoFlags && forall k: Section :: line != Name(k)
    ensures ControlStep(lc, c, line) == c
  {
  }

  /** The trimmed lines of a control file. */
  function TrimmedLines(lines: seq<string>): set<string>
  {
    set i | 0 <= i < |lines| :: RemoveSpaces(lines[i])
  }

  /** Every name read is a line of the file without its spaces, never blank; the input name is the default or such a line. */
  predicate FromLines(c: Control, lines: seq<string>)
  {
    && (c.inputFile == Unset || (c.inputFile in TrimmedLines(lines) && c.inputFile != ""))
    && (forall i :: 0 <= i < |c.punchFiles| ==> c.punchFiles[i] in TrimmedLines(lines) && c.punchFiles[i] != "")
    && (forall i :: 0 <= i < |c.groupFiles| ==> c.groupFiles[i] in TrimmedLines(lines) && c.groupFiles[i] != "")
    && (c.allParam == "" || c.allParam in TrimmedLines(lines))
  }

  lemma FromLinesGrow(c: Control, lines: seq<string>, raw: string)
    requires FromLines(c, lines)
    ensures FromLines(c, lines + [raw])
    ensures RemoveSpaces(raw) in TrimmedLines(lines + [raw])
  {
    var l2 := lines + [raw];
    assert l2[|lines|] == raw;
    forall i | 0 <= i < |lines| ensures RemoveSpaces(lines[i]) in TrimmedLines(l2) {
      assert l2[i] == lines[i];
    }
  }

  /** A control line that is a line of the file keeps every name read a line of the file. */
  lemma StepFromLines(lc: Libc, c: Control, lines: seq<string>, line: string)
    requires FromLines(c, lines) && line in TrimmedLines(lines)
    ensures FromLines(ControlStep(lc, c, line), lines)
  {
    TakerOpen(c.open, WordOf(line));
  }

  /** The input file, the punch files, the group files and the ALL parameters all come from lines of the control file. */
  lemma {:induction false} NamesComeFromLines(lc: Libc, lines: seq<string>)
    ensures FromLines(ControlAll(lc, lines), lines)
  {
    if lines != [] {
      var init, last := lines[..|lines| - 1], lines[|lines| - 1];
      assert init + [last] == lines;
      NamesComeFromLines(lc, init);
      FromLinesGrow(ControlAll(lc, init), init, last);
      StepFromLines(lc, ControlAll(lc, init), lines, RemoveSpaces(last));
    }
  }

  /** Without a line reading INPUT the input file stays at its default and the run stops. */
  lemma {:induction false} NoInputKeywordNoInput(lc: Libc, lines: seq<string>)
    requires forall i :: 0 <= i < |lines| ==> RemoveSpaces(lines[i]) != "INPUT"
    ensures ControlAll(lc, lines).inputFile == Unset && !ControlAll(lc, lines).open.input
  {
    if lines != [] {
      NoInputKeywordNoInput(lc, lines[..|lines| - 1]);
      var c := ControlAll(lc, lines[..|lines| - 1]);
      var w := WordOf(RemoveSpaces(lines[|lines| - 1]));
      TakerOpen(c.open, w);
      StepFlags(c.open, w);
    }
  }

  /** Without a line reading PUNCH no punch file is listed and the run stops. */
  lemma {:induction false} NoPunchKeywordNoPunch(lc: Libc, lines: seq<string>)
    requires forall i :: 0 <= i < |lines| ==> RemoveSpaces(lines[i]) != "PUNCH"
    ensures ControlAll(lc, lines).punchFiles == [] && !ControlAll(lc, lines).open.punch
  {
    if lines != [] {
      NoPunchKeywordNoPunch(lc, lines[..|lines| - 1]);
      var c := ControlAll(lc, lines[..|lines| - 1]);
      var w := WordOf(RemoveSpaces(lines[|lines| - 1]));
      TakerOpen(c.open, w);
      StepFlags(c.open, w);
    }
  }

  /** INPUT followed by a line that does not close the section names the input file, and that name is never the default. */
  lemma InputNamed(lc: Libc, lines: seq<string>, keyword: string, name: string)
    requires !ControlAll(lc, lines).open.input
    requires RemoveSpaces(keyword) == "INPUT" && !Closes(WordOf(RemoveSpaces(name)), Input)
    ensures ControlAll(lc, lines + [keyword, name]).inputFile == RemoveSpaces(name) != Unset
  {
    OneSectionAtATime(lc, lines);
    var c := ControlAll(lc, lines);
    KeywordOpensSection(lc, c, RemoveSpaces(keyword), Input);
    var c1 := ControlStep(lc, c, RemoveSpaces(keyword));
    assert ControlAll(lc, lines + [keyword]) == c1 by {
      assert (lines + [keyword])[..|lines|] == lines;
    }
    assert Taker(c1.open, WordOf(RemoveSpaces(name))) == Some(Input);
    assert ControlAll(lc, lines + [keyword, name]) == ControlStep(lc, c1, RemoveSpaces(name)) by {
      assert (lines + [keyword, name])[..|lines| + 1] == lines + [keyword];
    }
    assert ' ' in Unset;
  }

  /** The control file, line by line. */
  method ReadControl(lc: Libc, lines: seq<string>) returns (c: Control)
    ensures c == ControlAll(lc, lines)
  {
    c := ControlStart();
    for i := 0 to |lines|
      invariant c == ControlAll(lc, lines[..i])
    {
      assert lines[..i + 1][..i] == lines[..i];
      c := ControlLine(lc, c, lines[i]);
    }
    assert lines[..|lines|] == lines;
  }

  /** The body of the control loop. */
  method ControlLine(lc: Libc, c0: Control, raw: string) returns (c: Control)
    ensures c == ControlStep(lc, c0, RemoveSpaces(raw))
  {
    var line := EraseSpaces(raw);
    var w := WordOf(line);
    c := c0;
    var f := c.open;
    if f.input {
      if !Closes(w, Input) {
        return c.(inputFile := line, open := f.(input := false));
      }
      f := f.(input := false);
    }
    if f.punch {
      if !Closes(w, Punch) {
        return c.(punchFiles := c.punchFiles + [line], open := f);
      }
      f := f.(punch := false);
    }
    if f.group {
      if !Closes(w, Group) {
        return c.(groupFiles := c.groupFiles + [line], open := f);
      }
      f := f.(group := false);
    }
    if f.all {
      if !Closes(w, All) {
        return c.(allParam := line, open := f.(all := false));
      }
      f := f.(all := false);
    }
    if f.subcases {
      if !Closes(w, Subcases) {
        var subs := SubcaseList(lc, line);
        return c.(subcases := c.subcases + subs, open := f);
      }
      f := f.(subcases := false);
    }
    c := c.(open := Opened(f, w));
  }

  /** The inner loop of a SUBCASES line. */
  method SubcaseList(lc: Libc, line: string) returns (subs: seq<int>)
    ensures subs == SubcaseValues(lc, line)
  {
    var fs := ParseComma(line);
    subs := [];
    for i := 0 to |fs|
      invariant subs == SubcaseValues(lc, line)[..i]
    {
      var f := EraseSpaces(fs[i]);
      subs := subs + [lc.atol(f)];
    }
  }

  /** How the run goes on once the control file is read. */
  datatype Start = NoInputFile | NoPunchFiles | Proceed

  /** The two early exits: no INPUT name, then no punch file. */
  function Decide(c: Control): Start
  {
    if c.inputFile == Unset then NoInputFile
    else if c.punchFiles == [] then NoPunchFiles
    else Proceed
  }

  /** A run proceeds only with an input file named by a line of the control file and at least one punch file. */
  lemma ProceedNeedsNames(lc: Libc, lines: seq<string>)
    requires Decide(ControlAll(lc, lines)) == Proceed
    ensures exists i :: 0 <= i < |lines| && RemoveSpaces(lines[i]) == "INPUT"
    ensures exists i :: 0 <= i < |lines| && RemoveSpaces(lines[i]) == "PUNCH"
    ensures ControlAll(lc, lines).inputFile in TrimmedLines(lines)
  {
    if forall i :: 0 <= i < |lines| ==> RemoveSpaces(lines[i]) != "INPUT" {
      NoInputKeywordNoInput(lc, lines);
    }
    if forall i :: 0 <= i < |lines| ==> RemoveSpaces(lines[i]) != "PUNCH" {
      NoPunchKeywordNoPunch(lc, lines);
    }
    NamesComeFromLines(lc, lines);
  }

  // ---------------------------------------------------------------------
  // The ALL parameters and the group files
  // ---------------------------------------------------------------------

  /** The ALL line read: the composite-only flag and the one request row for every CBUSH. */
  datatype AllSettings = AllSettings(compositeOnly: bool, request: FH.Request)

  /**
   * The ALL line: at least five fields, COMP in the first selects composite
   * rings only, then the ring size, MAT for material orientation, MAT for a
   * rotated (not as-is) result and the axis, used for both axes.
   */
  function ParseAll(lc: Libc, allParam: string): (r: Option<AllSettings>)
    ensures r.None? <==> |CommaFields(allParam)| <= 4
    ensures r.Some? ==> r.value.request.axis1 == r.value.request.axis2
    ensures r.Some? ==> (r.value.compositeOnly <==> RemoveSpaces(CommaFields(allParam)[0]) == "COMP")
  {
    var fs := CommaFields(allParam);
    if |fs| <= 4 then None
    else
      var axis := lc.atoi(RemoveSpaces(fs[4]));
      Some(AllSettings(RemoveSpaces(fs[0]) == "COMP",
                       FH.Request(axis, axis, lc.atoi(RemoveSpaces(fs[1])), RemoveSpaces(fs[2]) == "MAT",
                                  RemoveSpaces(fs[3]) != "MAT", 0)))
  }

  /** Only the first five fields of the ALL line matter. */
  lemma ParseAllIgnoresExtraFields(lc: Libc, fs: seq<string>)
    requires |fs| > 5 && fs[0] != [] && forall i :: 0 <= i < |fs| ==> ',' !in fs[i]
    ensures ParseAll(lc, Join(fs)) == ParseAll(lc, Join(fs[..5]))
  {
    CommaFieldsOfJoin(fs);
    CommaFieldsOfJoin(fs[..5]);
  }

  /** One parsed row of a group file. */
  datatype Row = Row(node: int, size: int, matOrient: bool, asIs: bool, single: bool, check: int,
                     axis1: int, axis2: int)

  /**
   * A group file line: at least seven fields. SINGLE in the fifth field
   * marks a node with one CBUSH and one axis; otherwise the fifth field is
   * the CBUSH the axis pair is given for, then both axes.
   */
  function RowOf(lc: Libc, line: string): (r: Option<Row>)
    ensures r.None? <==> |CommaFields(line)| <= 6
    ensures r.Some? ==> (r.value.single <==> RemoveSpaces(CommaFields(line)[4]) == "SINGLE")
    ensures r.Some? && r.value.single ==> r.value.check == 0 && r.value.axis2 == r.value.axis1
  {
    var fs := CommaFields(line);
    if |fs| <= 6 then None
    else
      var single := RemoveSpaces(fs[4]) == "SINGLE";
      var axis1 := lc.atoi(RemoveSpaces(fs[5]));
      Some(Row(lc.atol(RemoveSpaces(fs[0])), lc.atoi(RemoveSpaces(fs[1])), RemoveSpaces(fs[2]) == "MAT",
               RemoveSpaces(fs[3]) != "MAT", single,
               if single then 0 else lc.atol(RemoveSpaces(fs[4])),
               axis1, if single then axis1 else lc.atoi(RemoveSpaces(fs[6]))))
  }

  /** Only the first seven fields of a group line matter. */
  lemma RowIgnoresExtraFields(lc: Libc, fs: seq<string>)
    requires |fs| > 7 && fs[0] != [] && forall i :: 0 <= i < |fs| ==> ',' !in fs[i]
    ensures RowOf(lc, Join(fs)) == RowOf(lc, Join(fs[..7]))
  {
    CommaFieldsOfJoin(fs);
    CommaFieldsOfJoin(fs[..7]);
  }

  /** The rows of a group file, lines with fewer than seven fields skipped. */
  function Rows(lc: Libc, lines: seq<string>): (r: seq<Row>)
    ensures |r| <= |lines|
  {
    if lines == [] then []
    else
      Rows(lc, lines[..|lines| - 1])
      + match RowOf(lc, lines[|lines| - 1]) case Some(row) => [row] case None => []
  }

  /** `NODE_List` of a group. */
  function Nodes(rows: seq<Row>): (r: seq<int>)
    ensures |r| == |rows| && forall i :: 0 <= i < |rows| ==> r[i] == rows[i].node
  {
    seq(|rows|, i requires 0 <= i < |rows| => rows[i].node)
  }

  /** A row's settings as the filled-hole calculation takes them; a SINGLE row has both axes its own. */
  function RequestOf(row: Row): FH.Request
  {
    FH.Request(row.axis1, row.axis2, row.size, row.matOrient, row.asIs, row.check)
  }

  /** The request rows of a group, each from its own line. */
  function Requests(rows: seq<Row>): (r: seq<FH.Request>)
    ensures |r| == |rows| && forall i :: 0 <= i < |rows| ==> r[i] == RequestOf(rows[i])
  {
    seq(|rows|, i requires 0 <= i < |rows| => RequestOf(rows[i]))
  }

  /**
   * The request rows as the group loop builds them: a SINGLE row's second
   * axis is `Axis_List_1[0]`, the first axis of the group's first row.
   */
  function RequestsAsWritten(rows: seq<Row>): (r: seq<FH.Request>)
    ensures |r| == |rows|
  {
    seq(|rows|, i requires 0 <= i < |rows| =>
      if rows[i].single then RequestOf(rows[i]).(axis2 := rows[0].axis1) else RequestOf(rows[i]))
  }

  /** Each request is a function of its own line alone: a group's requests are those of its parts. */
  lemma RequestsCompose(a: seq<Row>, b: seq<Row>)
    ensures Requests(a + b) == Requests(a) + Requests(b)
    ensures Nodes(a + b) == Nodes(a) + Nodes(b)
  {
  }

  /** Every SINGLE row is worked about its own axis only. */
  lemma SingleRowOwnAxis(lc: Libc, lines: seq<string>, i: int)
    requires 0 <= i < |Rows(lc, lines)| && Rows(lc, lines)[i].single
    ensures Requests(Rows(lc, lines))[i].axis1 == Requests(Rows(lc, lines))[i].axis2
  {
    RowsSingle(lc, lines, i);
  }

  lemma {:induction false} RowsSingle(lc: Libc, lines: seq<string>, i: int)
    requires 0 <= i < |Rows(lc, lines)|
    ensures Rows(lc, lines)[i].single ==> Rows(lc, lines)[i].axis1 == Rows(lc, lines)[i].axis2
  {
    var init := lines[..|lines| - 1];
    if i >= |Rows(lc, init)| {
      var row := RowOf(lc, lines[|lines| - 1]);
      assert row.Some? && Rows(lc, lines)[i] == row.value;
    } else {
      RowsSingle(lc, init, i);
    }
  }

  /** The loop as written differs from the intended rows exactly at SINGLE rows whose axis is not the first row's. */
  lemma AsWrittenDiffers(rows: seq<Row>, i: int)
    requires 0 <= i < |rows| && forall j :: 0 <= j < |rows| && rows[j].single ==> rows[j].axis2 == rows[j].axis1
    ensures RequestsAsWritten(rows)[i] != Requests(rows)[i] <==> rows[i].single && rows[i].axis1 != rows[0].axis1
  {
  }

  /** Two SINGLE nodes about axes 1 and 2: as written, the second is worked about axes (2, 1). */
  lemma AsWrittenCounterexample()
    ensures var rows := [Row(100, 3, true, false, true, 0, 1, 1), Row(200, 3, true, false, true, 0, 2, 2)];
      RequestsAsWritten(rows)[1].axis2 == 1 && Requests(rows)[1].axis2 == 2
      && RequestsAsWritten(rows) != RequestsAsWritten(rows[..1]) + RequestsAsWritten(rows[1..])
  {
    var rows := [Row(100, 3, true, false, true, 0, 1, 1), Row(200, 3, true, false, true, 0, 2, 2)];
    assert RequestsAsWritten(rows)[1].axis2 == 1;
    assert RequestsAsWritten(rows[1..])[0].axis2 == 2;
    assert (RequestsAsWritten(rows[..1]) + RequestsAsWritten(rows[1..]))[1].axis2 == 2;
  }

  /** One group file line. */
  method ParseRow(lc: Libc, line: string) returns (r: Option<Row>)
    ensures r == RowOf(lc, line)
  {
    var fs := ParseComma(line);
    if |fs| <= 6 {
      return None;
    }
    var f0 := EraseSpaces(fs[0]);
    var f1 := EraseSpaces(fs[1]);
    var f2 := EraseSpaces(fs[2]);
    var f3 := EraseSpaces(fs[3]);
    var f4 := EraseSpaces(fs[4]);
    var f5 := EraseSpaces(fs[5]);
    var axis1 := lc.atoi(f5);
    if f4 == "SINGLE" {
      r := Some(Row(lc.atol(f0), lc.atoi(f1), f2 == "MAT", f3 != "MAT", true, 0, axis1, axis1));
    } else {
      var f6 := EraseSpaces(fs[6]);
      r := Some(Row(lc.atol(f0), lc.atoi(f1), f2 == "MAT", f3 != "MAT", false, lc.atol(f4), axis1, lc.atoi(f6)));
    }
  }

  /** The lines of one group file: the node list and the request rows, starting from empty lists. */
  method ReadGroup(lc: Libc, lines: seq<string>) returns (nodes: seq<int>, reqs: seq<FH.Request>)
    ensures nodes == Nodes(Rows(lc, lines)) && reqs == Requests(Rows(lc, lines))
  {
    nodes, reqs := [], [];
    ghost var rows: seq<Row> := [];
    for i := 0 to |lines|
      invariant rows == Rows(lc, lines[..i])
      invariant nodes == Nodes(rows) && reqs == Requests(rows)
    {
      var row := ParseRow(lc, lines[i]);
      RowsStep(lc, lines, i);
      if row.Some? {
        RowAppended(rows, row.value);
        rows := rows + [row.value];
        nodes := nodes + [row.value.node];
        reqs := reqs + [RequestOf(row.value)];
      }
    }
    assert lines[..|lines|] == lines;
  }

  /** The rows of one more line: that line's row, if it has one, after the others. */
  lemma RowsStep(lc: Libc, lines: seq<string>, i: nat)
    requires i < |lines|
    ensures Rows(lc, lines[..i + 1])
      == Rows(lc, lines[..i]) + match RowOf(lc, lines[i]) case Some(row) => [row] case None => []
  {
    assert lines[..i + 1][..i] == lines[..i];
  }

  /** A row appended adds its node and its request at the end. */
  lemma RowAppended(rows: seq<Row>, row: Row)
    ensures Nodes(rows + [row]) == Nodes(rows) + [row.node]
    ensures Requests(rows + [row]) == Requests(rows) + [RequestOf(row)]
  {
  }

  // ---------------------------------------------------------------------
  // The run after the model is loaded
  // ---------------------------------------------------------------------

  /** The composite filter a node list leaves unused (`Composite` is never set on the group path). */
  function NoComposite(bush: int, side: nat): bool
  {
    false
  }

  /** The outcome of one selection: a results file with its calls and printed rows, or nothing. */
  datatype Outcome = Written(file: string, jobs: seq<FH.Job>, printed: seq<FH.Line>) | Skipped(name: string)

  /** One group file: worked and written to its own results file when it has a row, skipped otherwise. */
  function GroupOutcome(a: map<int, seq<int>>, b: map<int, seq<int>>, lc: Libc, name: string,
                        contents: map<string, seq<string>>, subs: seq<int>, loadCases: set<int>): (r: Outcome)
    requires FH.NonEmpty(a) && FH.NonEmpty(b)
    ensures r.Written? ==> r.file == OutputName(name) && name in contents && Rows(lc, contents[name]) != []
    ensures r.Written? ==> |r.jobs| == FH.Count(Nodes(Rows(lc, contents[name])), a) + FH.Count(Nodes(Rows(lc, contents[name])), b)
    ensures r.Written? ==> forall l :: l in r.printed ==> l.sub in loadCases && (subs != [] ==> l.sub in subs)
  {
    var rows := if name in contents then Rows(lc, contents[name]) else [];
    if rows == [] then Skipped(name)
    else
      FH.RequestedJobsCount(a, b, Nodes(rows), Requests(rows));
      var printed := FH.Selection(a, b, Nodes(rows), FH.Subcases(subs, loadCases), false, NoComposite);
      assert forall l :: l in printed ==> l.sub in loadCases && (subs != [] ==> l.sub in subs) by {
        forall l | l in printed
          ensures l.sub in loadCases && (subs != [] ==> l.sub in subs)
        {
          FH.PrintedSubcasesExist(a, b, Nodes(rows), subs, loadCases, false, NoComposite, l);
        }
      }
      Written(OutputName(name), FH.RequestedJobs(a, b, Nodes(rows), Requests(rows)),
              printed)
  }

  /**
   * The group loop: each group file read into fresh lists (the lists are
   * cleared after every group), worked and written.
   */
  method RunGroups(model: FH.FhModel, lc: Libc, groups: seq<string>, contents: map<string, seq<string>>,
                   subs: seq<int>, loadCases: set<int>) returns (outs: seq<Outcome>)
    requires model.Valid()
    ensures |outs| == |groups|
    ensures forall i :: 0 <= i < |groups| ==> outs[i] == GroupOutcome(model.mapA, model.mapB, lc, groups[i], contents, subs, loadCases)
  {
    outs := [];
    for i := 0 to |groups|
      invariant |outs| == i
      invariant forall j :: 0 <= j < i ==> outs[j] == GroupOutcome(model.mapA, model.mapB, lc, groups[j], contents, subs, loadCases)
    {
      var o := RunGroup(model, lc, groups[i], contents, subs, loadCases);
      outs := outs + [o];
    }
  }

  /** One pass of the group loop: read the group file, then work and write it when it has a row. */
  method RunGroup(model: FH.FhModel, lc: Libc, name: string, contents: map<string, seq<string>>, subs: seq<int>,
                  loadCases: set<int>) returns (o: Outcome)
    requires model.Valid()
    ensures o == GroupOutcome(model.mapA, model.mapB, lc, name, contents, subs, loadCases)
  {
    var lines := if name in contents then contents[name] else [];
    var nodes, reqs := ReadGroup(lc, lines);
    if |nodes| > 0 {
      var jobs := model.CalculateNodes(nodes, reqs);
      var printed := model.GenerateFHOutput(nodes, subs, loadCases, false, NoComposite);
      o := Written(OutputName(name), jobs, printed);
    } else {
      o := Skipped(name);
    }
  }

  /**
   * Everything after `generate_FH_List`: without group files, the ALL line
   * for every CBUSH into `FH_Data.res`; otherwise each group file in turn.
   * `composite` tells whether a CBUSH's ring at a fastener node is composite;
   * `loadCases` holds the subcase keys of `LOAD_CASE_Map`.
   */
  method Process(model: FH.FhModel, lc: Libc, c: Control, contents: map<string, seq<string>>,
                 composite: (int, nat) -> bool, loadCases: set<int>) returns (outs: seq<Outcome>)
    requires model.Valid()
    ensures c.groupFiles == [] && ParseAll(lc, c.allParam).None? ==> outs == []
    ensures c.groupFiles == [] && ParseAll(lc, c.allParam).Some? ==>
      var s := ParseAll(lc, c.allParam).value;
      outs == [Written("FH_Data.res",
                       FH.AllJobs(model.mapA, FH.Ascending(model.mapA.Keys), 0, s.request)
                       + FH.AllJobs(model.mapB, FH.Ascending(model.mapB.Keys), 1, s.request),
                       FH.Selection(model.mapA, model.mapB, [], FH.Subcases(c.subcases, loadCases), s.compositeOnly, composite))]
    ensures c.groupFiles != [] ==> (|outs| == |c.groupFiles|
      && forall i :: 0 <= i < |outs| ==> outs[i] == GroupOutcome(model.mapA, model.mapB, lc, c.groupFiles[i], contents, c.subcases, loadCases))
  {
    if c.groupFiles == [] {
      var fs := ParseComma(c.allParam);
      if |fs| > 4 {
        var s := ParseAll(lc, c.allParam).value;
        var jobs := model.CalculateAll(s.request);
        var printed := model.GenerateFHOutput([], c.subcases, loadCases, s.compositeOnly, composite);
        outs := [Written("FH_Data.res", jobs, printed)];
      } else {
        outs := [];
      }
    } else {
      outs := RunGroups(model, lc, c.groupFiles, contents, c.subcases, loadCases);
    }
  }
}
