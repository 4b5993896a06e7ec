/**
 * String handling shared by every bulk-data card: trimming, the NASTRAN
 * exponent repair (`check_exp`), the real-number test (`checkReal`) and the
 * fixed-column field split used by each `parseBDFData`.
 */
module Text {

  /** `find_first_not_of(' ') == npos`: the text holds nothing but spaces. */
  predicate IsBlank(s: string)
  {
    forall i :: 0 <= i < |s| ==> s[i] == ' '
  }

  /** A run of `n` spaces, as `append(n, ' ')` writes it. */
  function Spaces(n: nat): (r: string)
    ensures |r| == n && IsBlank(r)
  {
    if n == 0 then "" else Spaces(n - 1) + " "
  }

  /** Drops leading spaces (`find_first_not_of(' ')`). */
  function TrimLeft(s: string): (r: string)
    ensures |r| <= |s| && r == s[|s| - |r|..]
    ensures IsBlank(s[..|s| - |r|])
    ensures r == [] || r[0] != ' '
  {
    if |s| > 0 && s[0] == ' ' then
      var t := TrimLeft(s[1..]);
      assert s[..|s| - |t|] == [' '] + s[1..][..|s| - 1 - |t|];
      t
    else
      s
  }

  /** Drops trailing spaces (`find_last_not_of(' ')`). */
  function TrimRight(s: string): (r: string)
    ensures |r| <= |s| && r == s[..|r|]
    ensures IsBlank(s[|r|..])
    ensures r == [] || r[|r| - 1] != ' '
  {
    if |s| > 0 && s[|s| - 1] == ' ' then
      var t := TrimRight(s[..|s| - 1]);
      assert s[|t|..] == s[..|s| - 1][|t|..] + [' '];
      t
    else
      s
  }

  /**
   * `LOAD_CASE::trim`, and the first half of every `check_exp` except MAT's:
   * "" for blank text, otherwise the text between the first and the last
   * non-space character.
   */
  function Trim(s: string): (r: string)
    ensures r == "" <==> IsBlank(s)
    ensures r != "" ==> r[0] != ' ' && r[|r| - 1] != ' '
  {
    if IsBlank(s) then "" else TrimRight(TrimLeft(s))
  }

  /** `r` stands in `s` from position k on, and only spaces follow it. */
  predicate KeptAt(s: string, k: int, r: string)
  {
    0 <= k && k + |r| <= |s| && s[k..k + |r|] == r && IsBlank(s[k + |r|..])
  }

  /** What trimming removes is blank, and what it keeps is one contiguous piece of the text. */
  lemma TrimIsSlice(s: string)
    ensures var k := |s| - |TrimLeft(s)|; IsBlank(s[..k]) && KeptAt(s, k, Trim(s))
  {
    var l := TrimLeft(s);
    var k := |s| - |l|;
    if IsBlank(s) {
      TrimLeftOfBlank(s);
      assert Trim(s) == "" && k == |s| && s[k..k] == "";
    } else {
      var r := TrimRight(l);
      assert Trim(s) == r;
      SuffixSlices(s, k, l, r);
    }
  }

  /** A prefix `r` of the suffix `l` of `s` from k, followed in `l` by spaces only, is kept in `s` at k. */
  lemma SuffixSlices(s: string, k: nat, l: string, r: string)
    requires k <= |s| && l == s[k..] && |r| <= |l| && r == l[..|r|] && IsBlank(l[|r|..])
    ensures KeptAt(s, k, r)
  {
    assert s[k + |r|..] == l[|r|..];
  }

  lemma TrimLeftOfBlank(s: string)
    requires IsBlank(s)
    ensures TrimLeft(s) == []
  {
  }

  /** Trimming twice changes nothing. */
  lemma TrimIdempotent(s: string)
    ensures Trim(Trim(s)) == Trim(s)
  {
    var t := Trim(s);
    if t != "" {
      assert !IsBlank(t) by { assert t[0] != ' '; }
      assert TrimLeft(t) == t;
      assert TrimRight(t) == t;
    }
  }

  /** Text with no leading or trailing space is its own trim. */
  lemma TrimOfTrimmed(s: string)
    requires s != "" && s[0] != ' ' && s[|s| - 1] != ' '
    ensures Trim(s) == s
  {
    assert !IsBlank(s) by { assert s[0] != ' '; }
    assert TrimLeft(s) == s;
    assert TrimRight(s) == s;
  }

  /** The text with every space removed. */
  function RemoveSpaces(s: string): (r: string)
    ensures |r| <= |s| && ' ' !in r
    ensures forall c :: c != ' ' ==> multiset(r)[c] == multiset(s)[c]
  {
    if s == [] then []
    else
      assert s == [s[0]] + s[1..];
      (if s[0] == ' ' then [] else [s[0]]) + RemoveSpaces(s[1..])
  }

  lemma {:induction false} RemoveSpacesAppend(a: string, b: string)
    ensures RemoveSpaces(a + b) == RemoveSpaces(a) + RemoveSpaces(b)
  {
    if a == [] {
      assert a + b == b;
    } else {
      var h := if a[0] == ' ' then [] else [a[0]];
      assert RemoveSpaces(a + b) == h + RemoveSpaces(a[1..] + b) by {
        assert (a + b)[0] == a[0] && (a + b)[1..] == a[1..] + b;
      }
      RemoveSpacesAppend(a[1..], b);
      Regroup3(h, RemoveSpaces(a[1..]), RemoveSpaces(b));
    }
  }

  /** Concatenation regrouped: `x + (y + z)` is `(x + y) + z`. */
  lemma Regroup3<T>(x: seq<T>, y: seq<T>, z: seq<T>)
    ensures x + (y + z) == x + y + z
  {
  }

  lemma {:induction false} RemoveSpacesIdentity(s: string)
    requires ' ' !in s
    ensures RemoveSpaces(s) == s
  {
    if s != [] {
      RemoveSpacesIdentity(s[1..]);
    }
  }

  /** Removing spaces twice changes nothing. */
  lemma RemoveSpacesIdempotent(s: string)
    ensures RemoveSpaces(RemoveSpaces(s)) == RemoveSpaces(s)
  {
    RemoveSpacesIdentity(RemoveSpaces(s));
  }

  lemma {:induction false} RemoveSpacesOfBlank(s: string)
    requires IsBlank(s)
    ensures RemoveSpaces(s) == ""
  {
    if s != [] {
      RemoveSpacesOfBlank(s[1..]);
    }
  }

  /** Erasing one space leaves the spaceless text unchanged. */
  lemma EraseOneSpace(r: string, p: nat)
    requires p < |r| && r[p] == ' '
    ensures RemoveSpaces(r[..p] + r[p + 1..]) == RemoveSpaces(r)
  {
    var a, rest, b := r[..p], r[p..], r[p + 1..];
    assert rest[0] == ' ' && rest[1..] == b;
    assert RemoveSpaces(rest) == RemoveSpaces(b);
    assert r == a + rest;
    RemoveSpacesAppend(a, rest);
    RemoveSpacesAppend(a, b);
  }

  /**
   * `BASIC_MODEL::trim` and the `trim` of fill_it.cpp: "" for blank text,
   * otherwise erase the first space again and again until none is left.
   */
  method EraseSpaces(s: string) returns (r: string)
    ensures r == RemoveSpaces(s)
  {
    if IsBlank(s) {
      RemoveSpacesOfBlank(s);
      return "";
    }
    r := s;
    while FindFrom(r, ' ', 0) != -1
      invariant RemoveSpaces(r) == RemoveSpaces(s)
      decreases |r|
    {
      var p := FindFrom(r, ' ', 0);
      EraseOneSpace(r, p);
      r := r[..p] + r[p + 1..];
    }
    RemoveSpacesIdentity(r);
  }

  /** `find_first_of(c, from)`: the first index at or after `from` holding `c`, or -1 for npos. */
  function FindFrom(s: string, c: char, from: nat): (r: int)
    ensures r == -1 || (from <= r < |s| && s[r] == c)
    ensures r == -1 ==> forall i :: from <= i < |s| ==> s[i] != c
    ensures r != -1 ==> forall i :: from <= i < r ==> s[i] != c
    decreases |s| - from
  {
    if from >= |s| then -1
    else if s[from] == c then from
    else FindFrom(s, c, from + 1)
  }

  /** `find_last_of(c)`: the last index holding `c`, or -1 for npos. */
  function FindLast(s: string, c: char): (r: int)
    ensures r == -1 || (0 <= r < |s| && s[r] == c)
    ensures r == -1 ==> c !in s
    ensures r != -1 ==> forall i :: r < i < |s| ==> s[i] != c
  {
    if s == [] then -1
    else if s[|s| - 1] == c then |s| - 1
    else FindLast(s[..|s| - 1], c)
  }

  /** Where `check_exp` looks for an exponent sign: the first '-' after index 0, else the first '+'. */
  function ExponentSign(t: string): int
  {
    var minus := FindFrom(t, '-', 1);
    if minus != -1 then minus else FindFrom(t, '+', 1)
  }

  /** The second half of `check_exp`: insert "E" before the exponent sign when no 'E'/'e' is present. */
  function RepairExponent(t: string): string
  {
    var p := ExponentSign(t);
    if p != -1 && 'E' !in t && 'e' !in t then t[..p] + "E" + t[p..] else t
  }

  /**
   * `check_exp` as GRID, CQUAD, CBUSH, COORD, RBE2, RBE3, PSHELL, PCOMP and
   * PBUSH each define it: trim leading and trailing spaces, then repair a
   * NASTRAN exponent written without its 'E'.
   */
  function CheckExp(s: string): string
  {
    var t := Trim(s);
    if t == "" then "" else RepairExponent(t)
  }

  /** MAT's `check_exp`: identical except that it removes every space first. */
  function CheckExpStripped(s: string): string
  {
    if IsBlank(s) then "" else RepairExponent(RemoveSpaces(s))
  }

  /** Text is blank exactly when nothing is left of it once its spaces are removed. */
  lemma BlankIffNoText(s: string)
    ensures IsBlank(s) <==> RemoveSpaces(s) == ""
  {
    if IsBlank(s) {
      RemoveSpacesOfBlank(s);
    } else {
      var k :| 0 <= k < |s| && s[k] != ' ';
      assert s[k] in multiset(s);
      assert s[k] in multiset(RemoveSpaces(s));
    }
  }

  /** MAT's `check_exp` also yields "" exactly for a blank field. */
  lemma CheckExpStrippedBlank(s: string)
    ensures CheckExpStripped(s) == "" <==> IsBlank(s)
  {
    BlankIffNoText(s);
  }

  /**
   * MAT's `check_exp` sees only the characters that are not spaces: two
   * fields that differ only in their spaces, wherever those are, give the
   * same text.
   */
  lemma CheckExpStrippedSpaces(f: string, g: string)
    requires RemoveSpaces(f) == RemoveSpaces(g)
    ensures CheckExpStripped(f) == CheckExpStripped(g)
  {
    BlankIffNoText(f);
    BlankIffNoText(g);
  }

  /** `checkReal`: the text is a real number iff it contains a '.'. */
  predicate CheckReal(s: string)
  {
    '.' in s
  }

  /** `check_exp` yields "" exactly for a blank field. */
  lemma CheckExpBlank(s: string)
    ensures CheckExp(s) == "" <==> IsBlank(s)
  {
    var t := Trim(s);
    if t != "" {
      var p := ExponentSign(t);
      if p != -1 && 'E' !in t && 'e' !in t {
        assert |t[..p] + "E" + t[p..]| > 0;
      }
    }
  }

  /** A field that already carries an 'E' or 'e', or has no sign after its first character, is only trimmed. */
  lemma CheckExpOnlyTrims(s: string)
    requires 'E' in Trim(s) || 'e' in Trim(s) || ExponentSign(Trim(s)) == -1
    ensures CheckExp(s) == Trim(s)
  {
  }

  /**
   * Otherwise `check_exp` inserts exactly one 'E', immediately before the
   * first '-' after index 0 (the first '+' when there is no such '-'), and
   * leaves every other character where trimming put it.
   */
  lemma CheckExpInsertsE(s: string)
    requires 'E' !in Trim(s) && 'e' !in Trim(s) && ExponentSign(Trim(s)) != -1
    ensures var t, r, p := Trim(s), CheckExp(s), ExponentSign(Trim(s));
      1 <= p < |t| && |r| == |t| + 1 && r[p] == 'E' && r[..p] == t[..p] && r[p + 1..] == t[p..]
      && (t[p] == '-' || (t[p] == '+' && forall q :: 1 <= q < |t| ==> t[q] != '-'))
      && forall q :: 1 <= q < p ==> t[q] != t[p]
  {
    var t := Trim(s);
    ExponentSignFound(t);
    var p := ExponentSign(t);
    assert CheckExp(s) == t[..p] + "E" + t[p..];
    InsertE(t, p);
  }

  /** A sign found after the first character is a '-', or a '+' when the text has no '-' there; none of its kind comes earlier. */
  lemma ExponentSignFound(t: string)
    requires ExponentSign(t) != -1
    ensures var p := ExponentSign(t);
      1 <= p < |t| && (t[p] == '-' || (t[p] == '+' && forall q :: 1 <= q < |t| ==> t[q] != '-'))
      && forall q :: 1 <= q < p ==> t[q] != t[p]
  {
  }

  /** Inserting "E" at p shifts the rest of the text by one. */
  lemma InsertE(t: string, p: int)
    requires 0 <= p <= |t|
    ensures var r := t[..p] + "E" + t[p..];
      |r| == |t| + 1 && r[p] == 'E' && r[..p] == t[..p] && r[p + 1..] == t[p..]
  {
    var r := t[..p] + "E" + t[p..];
    assert r[p + 1..] == t[p..];
  }

  /** "1.5-3" becomes "1.5E-3". */
  lemma CheckExpExampleMantissa()
    ensures CheckExp("1.5-3") == "1.5E-3"
  {
    var s := "1.5-3";
    assert s[0] == '1' && s[1] == '.' && s[2] == '5' && s[3] == '-' && s[4] == '3';
    assert !IsBlank(s);
    assert TrimLeft(s) == s;
    assert TrimRight(s) == s;
    assert FindFrom(s, '-', 3) == 3;
    assert FindFrom(s, '-', 1) == 3;
    assert 'E' !in s && 'e' !in s;
    assert s[..3] + "E" + s[3..] == "1.5E-3";
  }

  /** A leading minus sign is not an exponent: "-2.0" is unchanged. */
  lemma CheckExpExampleLeadingSign()
    ensures CheckExp("-2.0") == "-2.0"
  {
    var t := "-2.0";
    assert t[0] == '-' && t[3] == '0';
    TrimOfTrimmed(t);
    NoExponentSignInMinusTwo();
  }

  lemma NoExponentSignInMinusTwo()
    ensures ExponentSign("-2.0") == -1
  {
    var t := "-2.0";
    assert t[0] == '-' && t[1] == '2' && t[2] == '.' && t[3] == '0';
    assert FindFrom(t, '-', 1) == -1 && FindFrom(t, '+', 1) == -1;
  }

  /** `substr(pos, n)`; `pos` past the end would throw `out_of_range`. */
  function Substr(s: string, pos: nat, n: nat): (r: string)
    requires pos <= |s|
    ensures |r| == if pos + n <= |s| then n else |s| - pos
    ensures r == s[pos..pos + |r|]
  {
    if pos + n <= |s| then s[pos..pos + n] else s[pos..]
  }

  /** Every line has passed through `checkBDFLine`, so it is at least 80 characters long. */
  predicate Padded(lines: seq<string>)
  {
    forall i :: 0 <= i < |lines| ==> |lines[i]| >= 80
  }

  /**
   * Field k, read as blank when the list is too short for it: where a parser would
   * read past the end of its field list, the model reads an empty field.
   */
  function Field(fs: seq<string>, k: nat): (r: string)
    ensures k < |fs| ==> r == fs[k]
    ensures k >= |fs| ==> IsBlank(r)
  {
    if k < |fs| then fs[k] else ""
  }

  /**
   * The fields of one line taken from column `j` onwards, `step` apart, while
   * the column is below 72. Every line reaching a parser is padded (see
   * `Padded`), so the guard on the line's length never cuts a field list short.
   */
  function ColumnFields(line: string, j: nat, step: nat, width: nat): seq<string>
    requires step > 0
    decreases 72 - j
  {
    if j >= 72 || j > |line| then [] else [Substr(line, j, width)] + ColumnFields(line, j + step, step, width)
  }

  /** The field list every `parseBDFData` builds: each line's fields in order, line after line. */
  function CardFields(lines: seq<string>, step: nat, width: nat): seq<string>
    requires step > 0
  {
    if lines == [] then []
    else CardFields(lines[..|lines| - 1], step, width) + ColumnFields(lines[|lines| - 1], 8, step, width)
  }

  /**
   * The fields of a card: small field reads 8 characters every 8 columns,
   * large field 16 characters every 16 columns.
   */
  function Fields(lines: seq<string>, long: bool): seq<string>
  {
    if long then CardFields(lines, 16, 16) else CardFields(lines, 8, 8)
  }

  /**
   * The fields of a punch-file result entry (`addForceResult`): each line's
   * 18-character fields at columns 18, 36 and 54, line after line.
   */
  function PunchFields(lines: seq<string>): seq<string>
  {
    if lines == [] then [] else PunchFields(lines[..|lines| - 1]) + ColumnFields(lines[|lines| - 1], 18, 18, 18)
  }

  /** A punch line of 72 or more characters holds three result fields. */
  lemma PunchFieldLayout(line: string)
    requires |line| >= 72
    ensures PunchFields([line]) == [line[18..36], line[36..54], line[54..72]]
  {
    assert [line][..0] == [];
  }

  /** The fields as `check_exp` returns them: trimmed, with a NASTRAN exponent repaired. */
  function Checked(fs: seq<string>): (cs: seq<string>)
    ensures |cs| == |fs|
  {
    if fs == [] then [] else Checked(fs[..|fs| - 1]) + [CheckExp(fs[|fs| - 1])]
  }

  /** `check_exp` of every field, in order. */
  method CheckFields(fs: seq<string>) returns (cs: seq<string>)
    ensures cs == Checked(fs)
  {
    cs := [];
    for i := 0 to |fs|
      invariant cs == Checked(fs[..i])
    {
      CheckedExtend(fs, 0, i);
      cs := cs + [CheckExp(fs[i])];
    }
    assert fs[..|fs|] == fs;
  }

  /** Checking one more field appends its checked text. */
  lemma CheckedExtend(fields: seq<string>, from: nat, i: nat)
    requires from <= i < |fields|
    ensures Checked(fields[from..i + 1]) == Checked(fields[from..i]) + [CheckExp(fields[i])]
  {
    var t := fields[from..i + 1];
    assert t != [] && t[..|t| - 1] == fields[from..i] && t[|t| - 1] == fields[i];
  }

  /** Each checked field is `check_exp` of the field in the same place. */
  lemma {:induction false} CheckedAt(fs: seq<string>, k: nat)
    requires k < |fs|
    ensures Checked(fs)[k] == CheckExp(fs[k])
  {
    if k < |fs| - 1 {
      CheckedAt(fs[..|fs| - 1], k);
    }
  }

  /** A checked field reads as `check_exp` of the field, also past the end of the list. */
  lemma CheckedField(fs: seq<string>, k: nat)
    ensures Field(Checked(fs), k) == CheckExp(Field(fs, k))
  {
    if k < |fs| {
      CheckedAt(fs, k);
    } else {
      CheckExpBlank("");
    }
  }

  /** Small field: eight 8-character fields per line at columns 8, 16, ..., 64. */
  lemma SmallFieldLayout(line: string)
    requires |line| >= 80
    ensures var f := ColumnFields(line, 8, 8, 8);
      |f| == 8 && forall k :: 0 <= k < 8 ==> f[k] == line[8 + 8 * k..16 + 8 * k]
  {
    var f := ColumnFields(line, 8, 8, 8);
    assert f == [line[8..16], line[16..24], line[24..32], line[32..40], line[40..48], line[48..56], line[56..64], line[64..72]];
  }

  /** Large field: four fields per line at columns 8, 24, 40, 56, each `width` characters (16, or 8 where RBE2/RBE3 read only half). */
  lemma LargeFieldLayout(line: string, width: nat)
    requires |line| >= 80 && width <= 16
    ensures var f := ColumnFields(line, 8, 16, width);
      |f| == 4 && forall k :: 0 <= k < 4 ==> f[k] == line[8 + 16 * k..8 + 16 * k + width]
  {
    var f := ColumnFields(line, 8, 16, width);
    assert f == [line[8..8 + width], line[24..24 + width], line[40..40 + width], line[56..56 + width]];
  }

  /** A card's fields are its first lines' fields followed by its remaining lines' fields. */
  lemma {:induction false} CardFieldsAppend(a: seq<string>, b: seq<string>, step: nat, width: nat)
    requires step > 0
    ensures CardFields(a + b, step, width) == CardFields(a, step, width) + CardFields(b, step, width)
    decreases |b|
  {
    if b == [] {
      assert a + b == a;
    } else {
      var m := |b| - 1;
      var b', x := b[..m], b[m];
      assert b == b' + [x];
      assert a + b == (a + b') + [x];
      CardFieldsSnoc(a + b', x, step, width);
      CardFieldsSnoc(b', x, step, width);
      CardFieldsAppend(a, b', step, width);
      Regroup(CardFields(a + b, step, width), CardFields(a + b', step, width), CardFields(a, step, width),
        CardFields(b', step, width), CardFields(b, step, width), ColumnFields(x, 8, step, width));
    }
  }

  /** One more line adds its own fields at the end. */
  lemma CardFieldsSnoc(lines: seq<string>, x: string, step: nat, width: nat)
    requires step > 0
    ensures CardFields(lines + [x], step, width) == CardFields(lines, step, width) + ColumnFields(x, 8, step, width)
  {
    var l := lines + [x];
    assert l[..|l| - 1] == lines && l[|l| - 1] == x;
  }

  /** `p` is `q` and one more piece, `q` is `x + y` and `r` is `y` and that piece: then `p` is `x + r`. */
  lemma Regroup<T>(p: seq<T>, q: seq<T>, x: seq<T>, y: seq<T>, r: seq<T>, last: seq<T>)
    requires p == q + last && q == x + y && r == y + last
    ensures p == x + r
  {
  }

  /** Line-count bookkeeping: each line contributes the same number `n` of fields. */
  lemma {:induction false} CardFieldsLength(lines: seq<string>, step: nat, width: nat, n: nat)
    requires step > 0
    requires forall l :: 0 <= l < |lines| ==> |ColumnFields(lines[l], 8, step, width)| == n
    ensures |CardFields(lines, step, width)| == n * |lines|
  {
    if lines != [] {
      var m := |lines| - 1;
      var init := lines[..m];
      var last := ColumnFields(lines[m], 8, step, width);
      assert forall l :: 0 <= l < |init| ==> init[l] == lines[l];
      CardFieldsLength(init, step, width, n);
      assert |last| == n;
      assert CardFields(lines, step, width) == CardFields(init, step, width) + last;
      MulSucc(n, m);
    }
  }

  /** n lines of one more: `n * (m + 1) == n * m + n`. */
  lemma MulSucc(n: nat, m: nat)
    ensures n * (m + 1) == n * m + n
  {
  }

  /** The nested split loops of `parseBDFData`: every line, columns 8 to 71, `step` apart. */
  method SplitFields(lines: seq<string>, step: nat, width: nat) returns (fields: seq<string>)
    requires step > 0 && Padded(lines)
    ensures fields == CardFields(lines, step, width)
  {
    fields := [];
    var i := 0;
    while i < |lines|
      invariant 0 <= i <= |lines|
      invariant fields == CardFields(lines[..i], step, width)
    {
      var row := LineFields(lines[i], step, width);
      assert lines[..i + 1][..i] == lines[..i];
      fields := fields + row;
      i := i + 1;
    }
    assert lines[..|lines|] == lines;
  }

  /** The inner split loop: one line's fields, columns 8 to 71, `step` apart. */
  method LineFields(line: string, step: nat, width: nat) returns (row: seq<string>)
    requires step > 0 && |line| >= 80
    ensures row == ColumnFields(line, 8, step, width)
  {
    row := [];
    var j := 8;
    while j < 72
      invariant row + ColumnFields(line, j, step, width) == ColumnFields(line, 8, step, width)
    {
      var f := line[j..if j + width <= |line| then j + width else |line|];
      ghost var rest := ColumnFields(line, j + step, step, width);
      assert ColumnFields(line, j, step, width) == [f] + rest;
      assert row + [f] + rest == row + ([f] + rest);
      row := row + [f];
      j := j + step;
    }
    assert row + [] == row;
  }
}
