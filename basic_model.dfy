/**
 * `BASIC_MODEL`: reading a bulk-data deck line by line into one map per
 * card type (`parseModel`), and reading the punch file of results into load
 * cases and per-element force records (`parsePunchFile`).
 *
 * File contents are parameters (each file is the sequence of lines
 * `std::getline` returns); the entities a card becomes are built by each
 * card's own parser, so the maps here hold the card's lines and format.
 */
module BasicModel {
  import opened Runtime
  import opened Text
  import LC = LoadCases

  // ----- Bulk data: lines, INCLUDE, card names -----

  /** `checkBDFLine`: a line shorter than 80 characters is padded with spaces to 80. */
  function PadLine(s: string): (r: string)
    ensures |r| == if |s| < 80 then 80 else |s|
    ensures r[..|s|] == s && IsBlank(r[|s|..])
  {
    if |s| < 80 then s + Spaces(80 - |s|) else s
  }

  /** The character `checkInclude` compares: a-z shifted down by 32, anything else as it is. */
  function Upper(c: char): char
  {
    if 'a' <= c <= 'z' then (c as int - 32) as char else c
  }

  /** `checkInclude`'s test: columns 0-6, upper-cased, spell INCLUDE. */
  predicate IsInclude(line: string)
    requires |line| >= 7
  {
    forall i :: 0 <= i < 7 ==> Upper(line[i]) == "INCLUDE"[i]
  }

  /** The test is case-insensitive letter by letter and nothing more. */
  lemma IncludeCaseInsensitive(line: string)
    requires |line| >= 7
    ensures IsInclude(line) <==> forall i :: 0 <= i < 7 ==> line[i] == "INCLUDE"[i] || line[i] == "include"[i]
  {
  }

  /**
   * Where `checkInclude` cuts the file name: the first single quote (else the
   * first double quote) and the last single quote (else the last double
   * quote); -1 stands for npos. Both are npos or neither is.
   */
  function Quotes(line: string): (r: (int, int))
    ensures (r.0 == -1) == (r.1 == -1)
    ensures r.0 != -1 ==> 0 <= r.0 <= r.1 < |line| && line[r.0] == line[r.1] && (line[r.0] == '\'' || line[r.0] == '"')
    ensures r.0 != -1 && line[r.0] == '"' ==> '\'' !in line
  {
    var f := FindFrom(line, '\'', 0);
    if f != -1 then
      assert line[f] == '\'';
      (f, FindLast(line, '\''))
    else
      var g := FindFrom(line, '"', 0);
      if g != -1 then assert line[g] == '"'; (g, FindLast(line, '"'))
      else (-1, FindLast(line, '"'))
  }

  /**
   * `substr(first + 1, last - first - 1)` with unsigned arithmetic: the text
   * between the quotes; the rest of the line after a lone quote (the length
   * wraps to npos); the whole line when there is no quote (both wrap).
   */
  function IncludeName(line: string): (r: string)
  {
    var q := Quotes(line);
    if q.0 == -1 then line
    else if q.0 == q.1 then line[q.0 + 1..]
    else line[q.0 + 1..q.1]
  }

  /** A name in single quotes is the text between them. */
  lemma IncludeNameQuoted(line: string, p: nat, q: nat)
    requires p < q < |line| && line[p] == '\'' && line[q] == '\''
    requires forall i :: 0 <= i < |line| && i != p && i != q ==> line[i] != '\''
    ensures IncludeName(line) == line[p + 1..q]
  {
    var f := FindFrom(line, '\'', 0);
    assert f == p;
    assert FindLast(line, '\'') == q;
  }

  /** Without a single quote, double quotes delimit the name. */
  lemma IncludeNameDoubleQuoted(line: string, p: nat, q: nat)
    requires p < q < |line| && line[p] == '"' && line[q] == '"' && '\'' !in line
    requires forall i :: 0 <= i < |line| && i != p && i != q ==> line[i] != '"'
    ensures IncludeName(line) == line[p + 1..q]
  {
    assert FindFrom(line, '\'', 0) == -1;
    assert FindFrom(line, '"', 0) == p;
    assert FindLast(line, '"') == q;
  }

  /** Without any quote the whole line, INCLUDE and padding included, becomes the file name. */
  lemma IncludeNameUnquoted(line: string)
    requires '\'' !in line && '"' !in line
    ensures IncludeName(line) == line
  {
    assert FindFrom(line, '\'', 0) == -1;
    assert FindFrom(line, '"', 0) == -1;
  }

  /** Columns 0-7 blank or "*       ": a continuation line. */
  predicate Continuation(line: string)
    requires |line| >= 8
  {
    line[..8] == "        " || line[..8] == "*       "
  }

  /** The ten card types `checkLine` recognises, in `inputType` order 1 to 10. */
  datatype Kind = CQUAD4 | GRID | CBUSH | CORD2R | PBUSH | PCOMP | PSHELL | MAT | RBE2 | RBE3

  /** The small-field card names. */
  function KindOf(name: string): Option<Kind>
  {
    if name == "CQUAD4" then Some(CQUAD4)
    else if name == "GRID" then Some(GRID)
    else if name == "CBUSH" then Some(CBUSH)
    else if name == "CORD2R" then Some(CORD2R)
    else if name == "PBUSH" then Some(PBUSH)
    else if name == "PCOMP" then Some(PCOMP)
    else if name == "PSHELL" then Some(PSHELL)
    else if name == "MAT1" || name == "MAT8" then Some(MAT)
    else if name == "RBE2" then Some(RBE2)
    else if name == "RBE3" then Some(RBE3)
    else None
  }

  /** A card name with its format: a trailing '*' marks large field. */
  function Classify(name: string): Option<(Kind, bool)>
  {
    if KindOf(name).Some? then Some((KindOf(name).value, false))
    else if |name| > 0 && name[|name| - 1] == '*' && KindOf(name[..|name| - 1]).Some? then
      Some((KindOf(name[..|name| - 1]).value, true))
    else None
  }

  /** Every card type is recognised in both formats, and the '*' alone decides the format. */
  lemma {:induction false} ClassifyFormats(name: string)
    requires KindOf(name).Some?
    ensures Classify(name) == Some((KindOf(name).value, false))
    ensures Classify(name + "*") == Some((KindOf(name).value, true))
  {
    assert (name + "*")[..|name|] == name;
    assert KindOf(name + "*") == None;
  }

  /** The card name of a header line: columns 0-7 with every space removed (`BASIC_MODEL::trim`). */
  function CardName(line: string): string
    requires |line| >= 8
  {
    RemoveSpaces(line[..8])
  }

  // ----- Bulk data: the card maps -----

  /** What a map holds for an ID: the card's lines and format, or the punch file's placeholder. */
  datatype Entry = Card(lines: seq<string>, long: bool) | Placeholder

  /** One map per card type. */
  type Store = map<Kind, map<int, Entry>>

  function Entries(st: Store, k: Kind): map<int, Entry>
  {
    if k in st then st[k] else map[]
  }

  /** `std::map::insert`: a new ID is added; an ID already present keeps its entry. */
  function Insert(st: Store, k: Kind, id: int, e: Entry): (r: Store)
    ensures id in Entries(r, k) && Entries(r, k).Keys == Entries(st, k).Keys + {id}
    ensures forall j :: j in Entries(st, k) ==> Entries(r, k)[j] == Entries(st, k)[j]
    ensures id !in Entries(st, k) ==> Entries(r, k)[id] == e
    ensures forall j :: j != k ==> Entries(r, j) == Entries(st, j)
  {
    st[k := MapInsert(Entries(st, k), id, e)]
  }

  /** `parseElementID`: the number in field 1 (columns 8-15, or 8-23 in large field). */
  function ElementID(lc: Libc, line: string, long: bool): int
    requires |line| >= 8
  {
    lc.atol(Substr(line, 8, if long then 16 else 8))
  }

  /**
   * The variables `parseModel` passes by reference: the file queue, the
   * pending card's lines, its type (`inputType`, None for 0), its format and
   * `parseFlag`.
   */
  datatype Scan = Scan(files: seq<string>, pending: seq<string>, kind: Option<Kind>, long: bool, parsing: bool)

  /** A card is pending exactly when a type is set and its header line is buffered; every buffered line is padded. */
  predicate Consistent(s: Scan)
  {
    (s.parsing <==> s.kind.Some?) && (s.parsing <==> s.pending != []) && Padded(s.pending)
  }

  /** The state before the first line: the file queue holds the root file. */
  function Start(fileName: string): (s: Scan)
    ensures Consistent(s) && !s.parsing
  {
    Scan([fileName], [], None, false, false)
  }

  /**
   * `makeEntry` followed by `parseFlag = false`, as both of its callers do:
   * the pending card goes into its type's map under its field-1 ID, and the
   * buffer and type are reset.
   */
  function Flush(lc: Libc, s: Scan, st: Store): (r: (Scan, Store))
    requires Consistent(s) && s.parsing
    ensures Consistent(r.0) && !r.0.parsing && r.0.files == s.files
  {
    (s.(pending := [], kind := None, parsing := false),
     Insert(st, s.kind.value, ElementID(lc, s.pending[0], s.long), Card(s.pending, s.long)))
  }

  /** `checkLine`: flush a pending card, then start a new one when the name is a known card. */
  function NewCard(lc: Libc, s: Scan, st: Store, line: string): (r: (Scan, Store))
    requires Consistent(s) && |line| >= 80
    ensures Consistent(r.0) && r.0.files == s.files
  {
    var f := if s.parsing then Flush(lc, s, st) else (s, st);
    match Classify(CardName(line))
    case None => f
    case Some(c) => (f.0.(pending := f.0.pending + [line], kind := Some(c.0), long := c.1, parsing := true), f.1)
  }

  /** One iteration of `parseModel`'s line loop. */
  function Step(lc: Libc, s: Scan, st: Store, raw: string): (r: (Scan, Store))
    requires Consistent(s)
    ensures Consistent(r.0)
    ensures |r.0.files| >= |s.files| && r.0.files[..|s.files|] == s.files
  {
    var line := PadLine(raw);
    if IsInclude(line) then
      var s1 := s.(files := s.files + [IncludeName(line)]);
      if s1.parsing then Flush(lc, s1, st) else (s1, st)
    else if Continuation(line) then
      if s.parsing then (s.(pending := s.pending + [line]), st) else (s, st)
    else
      NewCard(lc, s, st, line)
  }

  /** The line loop over one file. */
  function StepAll(lc: Libc, s: Scan, st: Store, lines: seq<string>): (r: (Scan, Store))
    requires Consistent(s)
    ensures Consistent(r.0)
    ensures |r.0.files| >= |s.files| && r.0.files[..|s.files|] == s.files
    decreases |lines|
  {
    if lines == [] then (s, st)
    else
      var n := Step(lc, s, st, lines[0]);
      StepAll(lc, n.0, n.1, lines[1..])
  }

  /**
   * The file loop of `parseModel`, from queue position `i`: a file the
   * contents map has is read and sets `valid`; one it lacks is skipped.
   * `fuel` bounds the number of queue entries visited (a file that includes
   * itself would otherwise keep the queue growing for ever).
   */
  function ReadFiles(lc: Libc, contents: map<string, seq<string>>, s: Scan, st: Store, i: nat, valid: bool, fuel: nat): (r: (Scan, Store, bool))
    requires Consistent(s)
    ensures Consistent(r.0)
    decreases fuel
  {
    if fuel == 0 || i >= |s.files| then (s, st, valid)
    else if s.files[i] in contents then
      var n := StepAll(lc, s, st, contents[s.files[i]]);
      ReadFiles(lc, contents, n.0, n.1, i + 1, true, fuel - 1)
    else
      ReadFiles(lc, contents, s, st, i + 1, valid, fuel - 1)
  }

  /** A continuation line joins the pending card, and is dropped when no card is pending; no map changes. */
  lemma ContinuationOnlyWhilePending(lc: Libc, s: Scan, st: Store, raw: string)
    requires Consistent(s) && Continuation(PadLine(raw))
    ensures var r := Step(lc, s, st, raw);
      r.1 == st && r.0.files == s.files &&
      r.0.pending == (if s.parsing then s.pending + [PadLine(raw)] else [])
  {
    var line := PadLine(raw);
    assert !IsInclude(line) by { assert Upper(line[0]) != 'I'; }
  }

  /** A line naming no known card flushes the pending one and leaves nothing pending. */
  lemma UnknownNameLeavesNothingPending(lc: Libc, s: Scan, st: Store, raw: string)
    requires Consistent(s)
    requires var line := PadLine(raw); !IsInclude(line) && !Continuation(line) && Classify(CardName(line)) == None
    ensures var r := Step(lc, s, st, raw);
      !r.0.parsing && r.0.pending == [] && r.1 == (if s.parsing then Flush(lc, s, st).1 else st)
  {
  }

  /** A header line of a known card flushes the pending card and starts a new one holding just that line. */
  lemma HeaderStartsCard(lc: Libc, s: Scan, st: Store, raw: string)
    requires Consistent(s)
    requires var line := PadLine(raw); !IsInclude(line) && !Continuation(line) && Classify(CardName(line)).Some?
    ensures var line, r := PadLine(raw), Step(lc, s, st, raw);
      var c := Classify(CardName(line)).value;
      r.0.parsing && r.0.pending == [line] && r.0.kind == Some(c.0) && r.0.long == c.1 &&
      r.1 == (if s.parsing then Flush(lc, s, st).1 else st)
  {
  }

  /** An INCLUDE line queues its file name and ends the pending card. */
  lemma IncludeQueuesFile(lc: Libc, s: Scan, st: Store, raw: string)
    requires Consistent(s) && IsInclude(PadLine(raw))
    ensures var r := Step(lc, s, st, raw);
      r.0.files == s.files + [IncludeName(PadLine(raw))] && !r.0.parsing &&
      r.1 == (if s.parsing then Flush(lc, s, st).1 else st)
  {
  }

  /** Flushing stores the card under its ID unless that ID is already taken: the first card wins. */
  lemma FirstCardWins(lc: Libc, s: Scan, st: Store)
    requires Consistent(s) && s.parsing
    ensures var id, k, r := ElementID(lc, s.pending[0], s.long), s.kind.value, Flush(lc, s, st).1;
      Entries(r, k)[id] == (if id in Entries(st, k) then Entries(st, k)[id] else Card(s.pending, s.long))
  {
  }

  /** What one map already holds for an ID. */
  predicate Holds(st: Store, k: Kind, id: int, e: Entry)
  {
    id in Entries(st, k) && Entries(st, k)[id] == e
  }

  /** A stored card is never replaced or removed by any later line. */
  lemma {:induction false} StoredCardsStay(lc: Libc, s: Scan, st: Store, lines: seq<string>, k: Kind, id: int, e: Entry)
    requires Consistent(s) && Holds(st, k, id, e)
    ensures Holds(StepAll(lc, s, st, lines).1, k, id, e)
    decreases |lines|
  {
    if lines != [] {
      var n := Step(lc, s, st, lines[0]);
      StepKeepsCard(lc, s, st, lines[0], k, id, e);
      StoredCardsStay(lc, n.0, n.1, lines[1..], k, id, e);
    }
  }

  /** One line never replaces or removes a stored card. */
  lemma StepKeepsCard(lc: Libc, s: Scan, st: Store, raw: string, k: Kind, id: int, e: Entry)
    requires Consistent(s) && Holds(st, k, id, e)
    ensures Holds(Step(lc, s, st, raw).1, k, id, e)
  {
    if s.parsing {
      assert Holds(Flush(lc, s, st).1, k, id, e);
    }
  }

  /**
   * A card still pending when the lines run out is never stored: a header
   * followed only by continuation lines leaves every map as it was and the
   * whole card in the buffer.
   */
  lemma {:induction false} LastCardNeverStored(lc: Libc, s: Scan, st: Store, lines: seq<string>)
    requires Consistent(s) && s.parsing
    requires forall i :: 0 <= i < |lines| ==> Continuation(PadLine(lines[i]))
    ensures var r := StepAll(lc, s, st, lines);
      r.1 == st && r.0.parsing && r.0.pending == s.pending + PaddedLines(lines)
    decreases |lines|
  {
    if lines != [] {
      ContinuationOnlyWhilePending(lc, s, st, lines[0]);
      var n := Step(lc, s, st, lines[0]);
      LastCardNeverStored(lc, n.0, n.1, lines[1..]);
      PaddedCons(lines);
      Assoc(s.pending, [PadLine(lines[0])], PaddedLines(lines[1..]));
    }
  }

  /** The lines of a card, each padded as `getline` leaves them. */
  function PaddedLines(lines: seq<string>): (r: seq<string>)
    ensures |r| == |lines| && forall i :: 0 <= i < |lines| ==> r[i] == PadLine(lines[i])
  {
    seq(|lines|, i requires 0 <= i < |lines| => PadLine(lines[i]))
  }

  /** The padded lines are the first line padded, then the rest padded. */
  lemma PaddedCons(lines: seq<string>)
    requires lines != []
    ensures PaddedLines(lines) == [PadLine(lines[0])] + PaddedLines(lines[1..])
  {
  }

  /** Without any file the contents map has, nothing is read, `valid` stays false and no map changes. */
  lemma {:induction false} NothingOpenedNothingRead(lc: Libc, contents: map<string, seq<string>>, s: Scan, st: Store, i: nat, fuel: nat)
    requires Consistent(s)
    requires forall j :: i <= j < |s.files| ==> s.files[j] !in contents
    ensures var r := ReadFiles(lc, contents, s, st, i, false, fuel); r.1 == st && !r.2
    decreases fuel
  {
    if fuel > 0 && i < |s.files| {
      NothingOpenedNothingRead(lc, contents, s, st, i + 1, fuel - 1);
    }
  }

  // ----- Punch file -----

  /** The record types `checkLoadCase` recognises by the element-type line. */
  const ElementForces := "$ELEMENT FORCES"
  const Quad := "$ELEMENT TYPE =          33  QUAD4"
  const QuadInMaterial := Quad + "                           MATERIAL"
  const Bush := "$ELEMENT TYPE =         102  BUSH"

  /** `substr(0, n).compare(p) == 0` for the `n` = |p| the source uses. */
  predicate StartsWith(s: string, p: string)
  {
    |s| >= |p| && s[..|p|] == p
  }

  /** `substr(pos, n)` on a line long enough to reach `pos`; see the README for shorter header lines. */
  function Cut(s: string, pos: nat, n: nat): string
  {
    if pos <= |s| then Substr(s, pos, n) else ""
  }

  /** A force record handed to an element's `addForceResult`, in the order of the punch file. */
  datatype Attachment =
    | QuadForces(id: int, subcase: int, lines: seq<string>, inMaterial: bool)
    | BushForces(id: int, subcase: int, lines: seq<string>)

  /** The map an attachment's element lives in. */
  function Owner(a: Attachment): Kind
  {
    if a.QuadForces? then CQUAD4 else CBUSH
  }

  /**
   * The locals of `parsePunchFile`: `load_Case`, `data_flag`,
   * `int_data` = (lines still to read, force flag, record type), the line
   * buffer, and the subcase `LOAD_CASE_it` points at.
   */
  datatype Punch = Punch(loadCase: bool, dataFlag: bool, count: nat, force: int, elemType: int, lines: seq<string>, current: int)

  const PunchStart := Punch(false, false, 0, 0, 0, [], 0)

  /** While a load-case header is being read, the buffer plus the lines still due make at least the seven header lines. */
  predicate PunchInv(p: Punch)
  {
    p.loadCase ==> !p.dataFlag && p.count <= 6 && |p.lines| + p.count >= 7
  }

  /** The members the punch file fills: the CQUAD and CBUSH maps, `LOAD_CASE_Map`, the force records and `pBoolData`. */
  datatype Results = Results(store: Store, loadCases: map<int, LC.Header>, attached: seq<Attachment>, present: seq<bool>)

  /** The subcase number of a header: columns 13-69 of its sixth line, spaces removed. */
  function SubcaseOf(lc: Libc, lines: seq<string>): int
    requires |lines| >= 6
  {
    lc.atol(RemoveSpaces(Cut(lines[5], 13, 57)))
  }

  /** The load cases after a header: a subcase seen for the first time is added with its trimmed titles. */
  function NewCases(lc: Libc, lines: seq<string>, cases: map<int, LC.Header>): map<int, LC.Header>
    requires |lines| >= 7
  {
    var sub := SubcaseOf(lc, lines);
    if sub in cases then cases
    else cases[sub := LC.Trimmed(Cut(lines[0], 10, 62), Cut(lines[1], 10, 62), Cut(lines[2], 10, 62))]
  }

  /**
   * `checkLoadCase`: a subcase seen for the first time gets its title,
   * subtitle and label from columns 10-71 of header lines 0-2; an element
   * force header sets the record type and length from line 6.
   */
  function LoadCaseHeader(lc: Libc, p: Punch, m: Results): (r: (Punch, Results))
    requires |p.lines| >= 7 && |m.present| == 7
    ensures |r.1.present| == 7 && r.1.store == m.store && r.1.attached == m.attached
    ensures r.0.loadCase == p.loadCase && r.0.dataFlag == p.dataFlag && r.0.current == SubcaseOf(lc, p.lines)
    ensures r.1.loadCases == NewCases(lc, p.lines, m.loadCases)
  {
    var sub := SubcaseOf(lc, p.lines);
    var cases := NewCases(lc, p.lines, m.loadCases);
    var p1, m1 := p.(current := sub), m.(loadCases := cases);
    if StartsWith(p.lines[3], ElementForces) then
      var t := p.lines[6];
      if StartsWith(t, QuadInMaterial) then
        (p1.(force := 1, elemType := 1, count := 3, lines := []), m1.(present := m1.present[0 := true]))
      else if StartsWith(t, Quad) then
        (p1.(force := 1, elemType := 2, count := 3, lines := []), m1.(present := m1.present[1 := true]))
      else if StartsWith(t, Bush) then
        (p1.(force := 1, elemType := 3, count := 2, lines := []), m1.(present := m1.present[2 := true]))
      else
        (p1.(force := 1, lines := []), m1)
    else
      (p1, m1)
  }

  /** The element ID of a record: columns 0-17 of its first line, spaces removed; an empty buffer reads as 0. */
  function RecordID(lc: Libc, lines: seq<string>): int
  {
    if lines == [] then 0 else lc.atol(RemoveSpaces(Substr(lines[0], 0, 18)))
  }

  /**
   * `makeLoadEntry`: a record with a non-zero ID gets its element (a
   * placeholder when the deck has none) and, for element forces, is handed
   * to the element and re-arms the record length.
   */
  function LoadEntry(lc: Libc, p: Punch, m: Results): (r: (Punch, Results))
    ensures r.0 == p || r.0 == p.(count := 3) || r.0 == p.(count := 2)
    ensures r.1.loadCases == m.loadCases && r.1.present == m.present
  {
    var id := RecordID(lc, p.lines);
    if id == 0 then (p, m)
    else if p.elemType == 1 || p.elemType == 2 then
      var st := Insert(m.store, CQUAD4, id, Placeholder);
      if p.force == 1 then
        (p.(count := 3), m.(store := st, attached := m.attached + [QuadForces(id, p.current, p.lines, p.elemType == 1)]))
      else (p, m.(store := st))
    else if p.elemType == 3 then
      var st := Insert(m.store, CBUSH, id, Placeholder);
      if p.force == 1 then
        (p.(count := 2), m.(store := st, attached := m.attached + [BushForces(id, p.current, p.lines)]))
      else (p, m.(store := st))
    else (p, m)
  }

  /** One iteration of `parsePunchFile`'s line loop. */
  function PunchStep(lc: Libc, p: Punch, m: Results, line: string): (r: (Punch, Results))
    requires PunchInv(p) && |m.present| == 7
    ensures PunchInv(r.0) && |r.1.present| == 7
  {
    if StartsWith(line, "$TITLE") && !p.loadCase then
      (p.(dataFlag := false, loadCase := true, lines := p.lines + [line], count := 6), m)
    else if p.dataFlag || p.loadCase then
      var p1 := if p.count > 0 then p.(lines := p.lines + [line], count := p.count - 1) else p;
      if p1.count == 0 && p1.loadCase then
        var c := LoadCaseHeader(lc, p1, m);
        (c.0.(dataFlag := true, loadCase := false), c.1)
      else if p1.count == 0 && p1.dataFlag then
        var e := LoadEntry(lc, p1, m);
        (e.0.(lines := []), e.1)
      else (p1, m)
    else (p, m)
  }

  /** The whole punch file. */
  function PunchAll(lc: Libc, p: Punch, m: Results, lines: seq<string>): (r: (Punch, Results))
    requires PunchInv(p) && |m.present| == 7
    ensures PunchInv(r.0) && |r.1.present| == 7
    decreases |lines|
  {
    if lines == [] then (p, m)
    else
      var n := PunchStep(lc, p, m, lines[0]);
      PunchAll(lc, n.0, n.1, lines[1..])
  }

  /** A record whose ID reads as 0 is ignored: nothing is created or attached and the record length is not re-armed. */
  lemma ZeroRecordIgnored(lc: Libc, p: Punch, m: Results)
    requires RecordID(lc, p.lines) == 0
    ensures LoadEntry(lc, p, m) == (p, m)
  {
  }

  /** A load case is created with its trimmed titles only the first time its subcase is seen. */
  lemma LoadCaseCreatedOnce(lc: Libc, p: Punch, m: Results)
    requires |p.lines| >= 7 && |m.present| == 7
    ensures var sub, r := SubcaseOf(lc, p.lines), LoadCaseHeader(lc, p, m).1;
      sub in r.loadCases && r.loadCases.Keys == m.loadCases.Keys + {sub} &&
      (forall s :: s in m.loadCases ==> r.loadCases[s] == m.loadCases[s]) &&
      (sub !in m.loadCases ==> r.loadCases[sub] == LC.Trimmed(Cut(p.lines[0], 10, 62), Cut(p.lines[1], 10, 62), Cut(p.lines[2], 10, 62)))
  {
    NewCasesOnce(lc, p.lines, m.loadCases);
  }

  /** The load-case map gains the subcase, with its trimmed titles, only when it is missing. */
  lemma NewCasesOnce(lc: Libc, lines: seq<string>, cases: map<int, LC.Header>)
    requires |lines| >= 7
    ensures var sub, r := SubcaseOf(lc, lines), NewCases(lc, lines, cases);
      sub in r && r.Keys == cases.Keys + {sub} && (forall s :: s in cases ==> r[s] == cases[s]) &&
      (sub !in cases ==> r[sub] == LC.Trimmed(Cut(lines[0], 10, 62), Cut(lines[1], 10, 62), Cut(lines[2], 10, 62)))
  {
  }

  /** The record types: QUAD4 in the material frame is type 1, other QUAD4 type 2, both three lines long; BUSH type 3, two lines long. */
  lemma RecordTypes(lc: Libc, p: Punch, m: Results)
    requires |p.lines| >= 7 && |m.present| == 7 && StartsWith(p.lines[3], ElementForces)
    ensures var r, t := LoadCaseHeader(lc, p, m), p.lines[6];
      r.0.force == 1 && r.0.lines == [] &&
      (StartsWith(t, QuadInMaterial) ==> r.0.elemType == 1 && r.0.count == 3 && r.1.present[0]) &&
      (!StartsWith(t, QuadInMaterial) && StartsWith(t, Quad) ==> r.0.elemType == 2 && r.0.count == 3 && r.1.present[1]) &&
      (!StartsWith(t, Quad) && StartsWith(t, Bush) ==> r.0.elemType == 3 && r.0.count == 2 && r.1.present[2]) &&
      (!StartsWith(t, Quad) && !StartsWith(t, Bush) ==> r.0.elemType == p.elemType && r.0.count == p.count)
  {
    var t := p.lines[6];
    if StartsWith(t, QuadInMaterial) {
      assert QuadInMaterial[..|Quad|] == Quad;
      assert t[..|Quad|] == t[..|QuadInMaterial|][..|Quad|];
    }
  }

  /** Every force record belongs to an element its map holds. */
  predicate Owned(m: Results)
  {
    forall i :: 0 <= i < |m.attached| ==> m.attached[i].id in Entries(m.store, Owner(m.attached[i]))
  }

  /** Every record is attached to an element created first when missing, and the maps only grow. */
  lemma AttachedHaveElements(lc: Libc, p: Punch, m: Results)
    requires Owned(m)
    ensures var r := LoadEntry(lc, p, m).1;
      Owned(r) && (forall k :: Entries(m.store, k).Keys <= Entries(r.store, k).Keys)
  {
    var id := RecordID(lc, p.lines);
    if id != 0 {
      if p.elemType == 1 || p.elemType == 2 {
        InsertKeepsOwned(m, CQUAD4, id, QuadForces(id, p.current, p.lines, p.elemType == 1));
      } else if p.elemType == 3 {
        InsertKeepsOwned(m, CBUSH, id, BushForces(id, p.current, p.lines));
      }
    }
  }

  /** Creating the element, then attaching a record of it, keeps every record owned. */
  lemma InsertKeepsOwned(m: Results, k: Kind, id: int, a: Attachment)
    requires Owned(m) && Owner(a) == k && a.id == id
    ensures var st := Insert(m.store, k, id, Placeholder);
      Owned(m.(store := st)) && Owned(m.(store := st, attached := m.attached + [a]))
      && forall j :: Entries(m.store, j).Keys <= Entries(st, j).Keys
  {
    var st := Insert(m.store, k, id, Placeholder);
    forall j
      ensures Entries(m.store, j).Keys <= Entries(st, j).Keys
    {
      if j != k {
        assert Entries(st, j) == Entries(m.store, j);
      }
    }
    var attached := m.attached + [a];
    forall i | 0 <= i < |attached|
      ensures attached[i].id in Entries(st, Owner(attached[i]))
    {
      if i < |m.attached| {
        assert attached[i] == m.attached[i];
      }
    }
  }

  /** The property holds over a whole punch file. */
  lemma {:induction false} PunchKeepsOwned(lc: Libc, p: Punch, m: Results, lines: seq<string>)
    requires PunchInv(p) && |m.present| == 7 && Owned(m)
    ensures Owned(PunchAll(lc, p, m, lines).1)
    decreases |lines|
  {
    if lines != [] {
      var line := lines[0];
      var p1 := if p.count > 0 then p.(lines := p.lines + [line], count := p.count - 1) else p;
      if !(StartsWith(line, "$TITLE") && !p.loadCase) && (p.dataFlag || p.loadCase) && !(p1.count == 0 && p1.loadCase) && p1.count == 0 && p1.dataFlag {
        AttachedHaveElements(lc, p1, m);
      }
      var n := PunchStep(lc, p, m, line);
      PunchKeepsOwned(lc, n.0, n.1, lines[1..]);
    }
  }

  // ----- The model object -----

  class Model {
    var store: Store
    var loadCases: map<int, LC.Header>
    var attached: seq<Attachment>
    var present: seq<bool>

    ghost predicate Valid()
      reads this
    {
      |present| == 7
    }

    function Members(): Results
      reads this
    {
      Results(store, loadCases, attached, present)
    }

    /** `BASIC_MODEL()`: empty maps and every result flag false. */
    constructor ()
      ensures Valid() && store == map[] && loadCases == map[] && attached == [] && present == seq(7, _ => false)
    {
      store := map[];
      loadCases := map[];
      attached := [];
      present := seq(7, _ => false);
    }

    /** `makeEntry` and the `parseFlag = false` after it. */
    method MakeEntry(lc: Libc, s: Scan) returns (t: Scan)
      requires Consistent(s) && s.parsing
      modifies this`store
      ensures (t, store) == Flush(lc, s, old(store))
    {
      var id := ElementID(lc, s.pending[0], s.long);
      store := Insert(store, s.kind.value, id, Card(s.pending, s.long));
      t := s.(pending := [], kind := None, parsing := false);
    }

    /** `checkLine`, with `trim` as the erase loop. */
    method CheckLine(lc: Libc, s: Scan, line: string) returns (t: Scan)
      requires Consistent(s) && |line| >= 80
      modifies this`store
      ensures (t, store) == NewCard(lc, s, old(store), line)
    {
      t := s;
      if t.parsing {
        t := MakeEntry(lc, t);
      }
      var name := EraseSpaces(line[..8]);
      var c := Classify(name);
      if c.Some? {
        t := t.(pending := t.pending + [line], kind := Some(c.value.0), long := c.value.1, parsing := true);
      }
    }

    /** One line of `parseModel`. */
    method ParseLine(lc: Libc, s: Scan, raw: string) returns (t: Scan)
      requires Consistent(s)
      modifies this`store
      ensures (t, store) == Step(lc, s, old(store), raw)
    {
      var line := PadLine(raw);
      t := s;
      if IsInclude(line) {
        t := t.(files := t.files + [IncludeName(line)]);
        if t.parsing {
          t := MakeEntry(lc, t);
        }
      } else if Continuation(line) {
        if t.parsing {
          t := t.(pending := t.pending + [line]);
        }
      } else {
        t := CheckLine(lc, t, line);
      }
    }

    /** The line loop over one file's contents. */
    method ParseFile(lc: Libc, s: Scan, lines: seq<string>) returns (t: Scan)
      requires Consistent(s)
      modifies this`store
      ensures (t, store) == StepAll(lc, s, old(store), lines)
    {
      t := s;
      var i := 0;
      while i < |lines|
        invariant 0 <= i <= |lines| && Consistent(t)
        invariant StepAll(lc, s, old(store), lines) == StepAll(lc, t, store, lines[i..])
      {
        assert lines[i..][1..] == lines[i + 1..];
        t := ParseLine(lc, t, lines[i]);
        i := i + 1;
      }
    }

    /**
     * `parseModel`: the file queue, starting from the root file; INCLUDE
     * lines append to it while it is read. Returns whether any file was read.
     */
    method ParseModel(lc: Libc, contents: map<string, seq<string>>, fileName: string, fuel: nat) returns (valid: bool, t: Scan)
      modifies this`store
      ensures (t, store, valid) == ReadFiles(lc, contents, Start(fileName), old(store), 0, false, fuel)
    {
      t := Start(fileName);
      valid := false;
      var i := 0;
      while i < |t.files| && i < fuel
        invariant i <= fuel && Consistent(t)
        invariant ReadFiles(lc, contents, Start(fileName), old(store), 0, false, fuel) == ReadFiles(lc, contents, t, store, i, valid, fuel - i)
        decreases fuel - i
      {
        if t.files[i] in contents {
          t := ParseFile(lc, t, contents[t.files[i]]);
          valid := true;
        }
        i := i + 1;
      }
    }

    /** `checkLoadCase`. */
    method CheckLoadCase(lc: Libc, p: Punch) returns (q: Punch)
      requires Valid() && |p.lines| >= 7
      modifies this`loadCases, this`present
      ensures Valid() && (q, Members()) == LoadCaseHeader(lc, p, old(Members()))
    {
      var sub := SubcaseOf(lc, p.lines);
      if sub !in loadCases {
        var c := LC.NewLoadCase(sub, Cut(p.lines[0], 10, 62), Cut(p.lines[1], 10, 62), Cut(p.lines[2], 10, 62));
        loadCases := loadCases[sub := c.Titles()];
      }
      q := p.(current := sub);
      if StartsWith(p.lines[3], ElementForces) {
        q := q.(force := 1);
        var t := p.lines[6];
        if StartsWith(t, QuadInMaterial) {
          q := q.(elemType := 1, count := 3);
          present := present[0 := true];
        } else if StartsWith(t, Quad) {
          q := q.(elemType := 2, count := 3);
          present := present[1 := true];
        } else if StartsWith(t, Bush) {
          q := q.(elemType := 3, count := 2);
          present := present[2 := true];
        }
        q := q.(lines := []);
      }
    }

    /** `makeLoadEntry`. */
    method MakeLoadEntry(lc: Libc, p: Punch) returns (q: Punch)
      modifies this`store, this`attached
      ensures (q, Members()) == LoadEntry(lc, p, old(Members()))
    {
      q := p;
      var id := RecordID(lc, p.lines);
      if id != 0 {
        if p.elemType == 1 || p.elemType == 2 {
          store := Insert(store, CQUAD4, id, Placeholder);
          if p.force == 1 {
            attached := attached + [QuadForces(id, p.current, p.lines, p.elemType == 1)];
            q := q.(count := 3);
          }
        } else if p.elemType == 3 {
          store := Insert(store, CBUSH, id, Placeholder);
          if p.force == 1 {
            attached := attached + [BushForces(id, p.current, p.lines)];
            q := q.(count := 2);
          }
        }
      }
    }

    /** One line of `parsePunchFile`. */
    method ParsePunchLine(lc: Libc, p: Punch, line: string) returns (q: Punch)
      requires Valid() && PunchInv(p)
      modifies this`store, this`loadCases, this`attached, this`present
      ensures Valid() && (q, Members()) == PunchStep(lc, p, old(Members()), line)
    {
      q := p;
      if StartsWith(line, "$TITLE") && !q.loadCase {
        q := q.(dataFlag := false, loadCase := true, lines := q.lines + [line], count := 6);
      } else if q.dataFlag || q.loadCase {
        if q.count > 0 {
          q := q.(lines := q.lines + [line], count := q.count - 1);
        }
        if q.count == 0 && q.loadCase {
          q := CheckLoadCase(lc, q);
          q := q.(dataFlag := true, loadCase := false);
        } else if q.count == 0 && q.dataFlag {
          q := MakeLoadEntry(lc, q);
          q := q.(lines := []);
        }
      }
    }

    /** `parsePunchFile` over the file's lines. */
    method ParsePunchFile(lc: Libc, lines: seq<string>)
      requires Valid()
      modifies this`store, this`loadCases, this`attached, this`present
      ensures Valid() && Members() == PunchAll(lc, PunchStart, old(Members()), lines).1
    {
      var p := PunchStart;
      var i := 0;
      while i < |lines|
        invariant 0 <= i <= |lines| && Valid() && PunchInv(p)
        invariant PunchAll(lc, PunchStart, old(Members()), lines) == PunchAll(lc, p, Members(), lines[i..])
      {
        assert lines[i..][1..] == lines[i + 1..];
        p := ParsePunchLine(lc, p, lines[i]);
        i := i + 1;
      }
    }
  }
}
