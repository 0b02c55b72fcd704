/** The spreadsheet ingest helpers (backend/ingest.py): column-name
    normalisation, the renaming of repeated names, the null markers and the
    detection of spreadsheet-formula columns. */
module Ingest {
  import opened Util

  // ---------------------------------------------------------------------------
  // normalize_col_name

  /** The characters Python's `str.strip()` removes: those `str.isspace()`
      accepts. */
  predicate IsSpace(c: char) {
    c == ' ' || '\t' <= c <= '\r' || '\U{1c}' <= c <= '\U{1f}' || c == '\U{85}'
    || c == '\U{a0}' || c == '\U{1680}' || '\U{2000}' <= c <= '\U{200a}'
    || c == '\U{2028}' || c == '\U{2029}' || c == '\U{202f}' || c == '\U{205f}'
    || c == '\U{3000}'
  }

  /** How many leading characters of `s` are whitespace. */
  function LeadingSpace(s: string): (n: nat)
    ensures n <= |s|
    ensures forall i :: 0 <= i < n ==> IsSpace(s[i])
    ensures n < |s| ==> !IsSpace(s[n])
    decreases |s|
  {
    if |s| > 0 && IsSpace(s[0]) then
      var n := 1 + LeadingSpace(s[1..]);
      assert forall i :: 1 <= i < n ==> s[i] == s[1..][i - 1];
      n
    else 0
  }

  /** How many trailing characters of `s` are whitespace. */
  function TrailingSpace(s: string): (n: nat)
    ensures n <= |s|
    ensures forall i :: |s| - n <= i < |s| ==> IsSpace(s[i])
    ensures n < |s| ==> !IsSpace(s[|s| - n - 1])
    decreases |s|
  {
    if |s| > 0 && IsSpace(s[|s| - 1]) then 1 + TrailingSpace(s[..|s| - 1]) else 0
  }

  /** `s.strip()`: the slice between the leading and the trailing whitespace. */
  function Strip(s: string): (r: string)
    ensures exists i, j :: 0 <= i <= j <= |s| && r == s[i..j]
                           && (forall k :: 0 <= k < i ==> IsSpace(s[k]))
                           && (forall k :: j <= k < |s| ==> IsSpace(s[k]))
    ensures |r| > 0 ==> !IsSpace(r[0]) && !IsSpace(r[|r| - 1])
  {
    var i := LeadingSpace(s);
    if i == |s| then
      assert s[i..i] == "";
      ""
    else
      var j := |s| - TrailingSpace(s);
      assert i < j by {
        assert !IsSpace(s[i]);
      }
      s[i..j]
  }

  /** `s.replace(pat, rep)`: non-overlapping occurrences, left to right. */
  function ReplaceAll(s: string, pat: string, rep: string): string
    requires |pat| > 0
    decreases |s|
  {
    if |s| < |pat| then s
    else if s[..|pat|] == pat then rep + ReplaceAll(s[|pat|..], pat, rep)
    else [s[0]] + ReplaceAll(s[1..], pat, rep)
  }

  /** A character in neither the text nor the replacement is not introduced. */
  lemma {:induction false} ReplaceKeepsAbsent(s: string, pat: string, rep: string, x: char)
    requires |pat| > 0 && x !in s && x !in rep
    ensures x !in ReplaceAll(s, pat, rep)
    decreases |s|
  {
    if |s| >= |pat| {
      if s[..|pat|] == pat {
        assert forall c :: c in s[|pat|..] ==> c in s;
        ReplaceKeepsAbsent(s[|pat|..], pat, rep, x);
      } else {
        assert forall c :: c in s[1..] ==> c in s;
        ReplaceKeepsAbsent(s[1..], pat, rep, x);
      }
    }
  }

  /** Replacing a single character by text without it removes it everywhere. */
  lemma {:induction false} ReplaceRemoves(s: string, c: char, rep: string)
    requires c !in rep
    ensures c !in ReplaceAll(s, [c], rep)
    decreases |s|
  {
    if |s| >= 1 {
      if s[..1] == [c] {
        ReplaceRemoves(s[1..], c, rep);
      } else {
        assert s[0] != c by {
          assert s[..1][0] == s[0];
        }
        ReplaceRemoves(s[1..], c, rep);
      }
    }
  }

  /** A replacement step `s.replace(pat, rep)`; the pattern is never empty. */
  type Step = (string, string)

  predicate ValidSteps(steps: seq<Step>) {
    forall j :: 0 <= j < |steps| ==> |steps[j].0| > 0
  }

  /** The replacements of `normalize_col_name`, in the order it applies them. */
  const NormalizeSteps: seq<Step> :=
    [(" ", "_"), (",_", "_"), ("(", ""), (")", ""), ("/", "_"), (".", "_"), ("?", "")]

  /** Applies the steps one after the other, as a chain of `.replace` calls. */
  function ReplaceEach(s: string, steps: seq<Step>): string
    requires ValidSteps(steps)
    decreases |steps|
  {
    if |steps| == 0 then s else ReplaceEach(ReplaceAll(s, steps[0].0, steps[0].1), steps[1..])
  }

  /** `normalize_col_name`. Lower-casing is modelled on ASCII. */
  function NormalizeColName(name: string): string {
    ReplaceEach(Lower(Strip(name)), NormalizeSteps)
  }

  /** A character that neither the text nor any replacement holds stays absent. */
  lemma {:induction false} ReplaceEachKeepsAbsent(s: string, steps: seq<Step>, x: char)
    requires ValidSteps(steps) && x !in s
    requires forall j :: 0 <= j < |steps| ==> x !in steps[j].1
    ensures x !in ReplaceEach(s, steps)
    decreases |steps|
  {
    if |steps| > 0 {
      ReplaceKeepsAbsent(s, steps[0].0, steps[0].1, x);
      ReplaceEachKeepsAbsent(ReplaceAll(s, steps[0].0, steps[0].1), steps[1..], x);
    }
  }

  /** A character that step `k` deletes or replaces, and that no later step
      introduces, is absent from the result. */
  lemma {:induction false} ReplaceEachRemoves(s: string, steps: seq<Step>, k: nat, x: char)
    requires ValidSteps(steps) && k < |steps| && steps[k].0 == [x]
    requires forall j :: k <= j < |steps| ==> x !in steps[j].1
    ensures x !in ReplaceEach(s, steps)
    decreases |steps|
  {
    var t := ReplaceAll(s, steps[0].0, steps[0].1);
    if k == 0 {
      ReplaceRemoves(s, x, steps[0].1);
      ReplaceEachKeepsAbsent(t, steps[1..], x);
    } else {
      ReplaceEachRemoves(t, steps[1..], k - 1, x);
    }
  }

  /** Steps whose patterns start with characters the text lacks change nothing. */
  lemma {:induction false} ReplaceEachAbsent(s: string, steps: seq<Step>)
    requires ValidSteps(steps)
    requires forall j :: 0 <= j < |steps| ==> steps[j].0[0] !in s
    ensures ReplaceEach(s, steps) == s
    decreases |steps|
  {
    if |steps| > 0 {
      ReplaceAbsentPattern(s, steps[0].0, steps[0].1);
      ReplaceEachAbsent(s, steps[1..]);
    }
  }

  /** Every replacement of `normalize_col_name` has a non-empty pattern and
      writes either nothing or an underscore. */
  lemma NormalizeStepsShape()
    ensures ValidSteps(NormalizeSteps) && |NormalizeSteps| == 7
    ensures forall j :: 0 <= j < 7 ==> NormalizeSteps[j].1 == "" || NormalizeSteps[j].1 == "_"
  {
  }

  /** A character other than `_` that step `k` replaces is gone at the end. */
  lemma NormalizedLacks(name: string, k: nat, x: char)
    requires k < 7 && x != '_'
    requires NormalizeSteps[k].0 == [x]
    ensures x !in NormalizeColName(name)
  {
    NormalizeStepsShape();
    ReplaceEachRemoves(Lower(Strip(name)), NormalizeSteps, k, x);
  }

  /** No step writes an upper-case letter, so none survives normalisation. */
  lemma NormalizedLower(name: string)
    ensures forall i :: 0 <= i < |NormalizeColName(name)| ==> !('A' <= NormalizeColName(name)[i] <= 'Z')
  {
    var s := Lower(Strip(name));
    var r := NormalizeColName(name);
    NormalizeStepsShape();
    LowerHasNoUpper(Strip(name));
    forall i | 0 <= i < |r| ensures !('A' <= r[i] <= 'Z') {
      var c := r[i];
      if 'A' <= c <= 'Z' {
        ReplaceEachKeepsAbsent(s, NormalizeSteps, c);
      }
    }
  }

  /** A normalised name has no space, parenthesis, slash, dot or question
      mark, and no upper-case ASCII letter. The question mark matters
      downstream: the WHERE builder's placeholders are exactly its `?`s. */
  lemma NormalizedIsClean(name: string)
    ensures var r := NormalizeColName(name);
      ' ' !in r && '(' !in r && ')' !in r && '/' !in r && '.' !in r && '?' !in r
      && forall i :: 0 <= i < |r| ==> !('A' <= r[i] <= 'Z')
  {
    NormalizedLacks(name, 0, ' ');
    NormalizedLacks(name, 2, '(');
    NormalizedLacks(name, 3, ')');
    NormalizedLacks(name, 4, '/');
    NormalizedLacks(name, 5, '.');
    NormalizedLacks(name, 6, '?');
    NormalizedLower(name);
  }

  /** A pattern whose first character does not occur leaves the text as is. */
  lemma {:induction false} ReplaceAbsentPattern(s: string, pat: string, rep: string)
    requires |pat| > 0 && pat[0] !in s
    ensures ReplaceAll(s, pat, rep) == s
    decreases |s|
  {
    if |s| >= |pat| {
      assert s[..|pat|][0] == s[0];
      assert forall c :: c in s[1..] ==> c in s;
      ReplaceAbsentPattern(s[1..], pat, rep);
    }
  }

  /** The characters a normalised name is typically made of. */
  predicate PlainNameChar(c: char) {
    'a' <= c <= 'z' || '0' <= c <= '9' || c == '_'
  }

  /** A name made of such characters only. */
  predicate PlainName(n: string) {
    forall i :: 0 <= i < |n| ==> PlainNameChar(n[i])
  }

  /** A name made only of lower-case letters, digits and underscores is its
      own normal form. */
  lemma NormalizeFixesPlainNames(name: string)
    requires forall i :: 0 <= i < |name| ==> PlainNameChar(name[i])
    ensures NormalizeColName(name) == name
  {
    StripWord(name);
    assert Lower(name) == name;
    PlainLacksPatterns(name);
    ReplaceEachAbsent(name, NormalizeSteps);
  }

  /** A name of ASCII letters (either case), digits and underscores. */
  predicate WordName(n: string) {
    forall i :: 0 <= i < |n| ==> 'A' <= n[i] <= 'Z' || PlainNameChar(n[i])
  }

  lemma StripWord(name: string)
    requires WordName(name)
    ensures Strip(name) == name
  {
    assert LeadingSpace(name) == 0 by {
      if |name| > 0 { assert !IsSpace(name[0]); }
    }
    assert TrailingSpace(name) == 0 by {
      if |name| > 0 { assert !IsSpace(name[|name| - 1]); }
    }
    assert name[0..|name|] == name;
  }

  lemma LowerWordIsPlain(name: string)
    requires WordName(name)
    ensures PlainName(Lower(name))
  {
    var n := Lower(name);
    forall i | 0 <= i < |n| ensures PlainNameChar(n[i]) {
      assert n[i] == LowerChar(name[i]);
    }
  }

  /** A word name normalises to its lower-case form, which is plain. */
  lemma NormalizeWordName(name: string)
    requires WordName(name)
    ensures PlainName(Lower(name)) && NormalizeColName(name) == Lower(name)
  {
    StripWord(name);
    var n := Lower(name);
    LowerWordIsPlain(name);
    PlainLacksPatterns(n);
    ReplaceEachAbsent(n, NormalizeSteps);
  }

  lemma PlainLacksPatterns(name: string)
    requires forall i :: 0 <= i < |name| ==> PlainNameChar(name[i])
    ensures ValidSteps(NormalizeSteps)
    ensures forall j :: 0 <= j < |NormalizeSteps| ==> NormalizeSteps[j].0[0] !in name
  {
    NormalizeStepsShape();
    forall j | 0 <= j < |NormalizeSteps| ensures NormalizeSteps[j].0[0] !in name {
      assert !PlainNameChar(NormalizeSteps[j].0[0]);
    }
  }

  // ---------------------------------------------------------------------------
  // Renaming repeated columns (clean_df)

  /** The name given to the `k`-th repeat of `name` (`k == 0`: the first
      occurrence). */
  function Suffixed(name: string, k: nat): string {
    if k == 0 then name else name + "_" + NatToString(k)
  }

  /** The column names `clean_df` assigns, stated without the counter: the
      name of column `i` is its normalised name, suffixed with how often that
      normalised name already occurred among the columns before it. */
  function Renamed(norms: seq<string>): (r: seq<string>)
    ensures |r| == |norms|
  {
    seq(|norms|, i requires 0 <= i < |norms| => Suffixed(norms[i], multiset(norms[..i])[norms[i]]))
  }

  function NormalizeAll(cols: seq<string>): (r: seq<string>)
    ensures |r| == |cols| && forall i :: 0 <= i < |cols| ==> r[i] == NormalizeColName(cols[i])
  {
    seq(|cols|, i requires 0 <= i < |cols| => NormalizeColName(cols[i]))
  }

  /** The header `clean_df` produces for the DataFrame columns `cols` (the
      header cells after `read_excel`). */
  function CleanNames(cols: seq<string>): (r: seq<string>)
    ensures |r| == |cols|
  {
    Renamed(NormalizeAll(cols))
  }

  /** The renaming loop of `clean_df` on the normalised names: `seen` maps
      each name met so far to the number of its repeats. */
  method RenameColumns(norms: seq<string>) returns (newCols: seq<string>)
    ensures newCols == Renamed(norms)
  {
    var seen: map<string, nat> := map[];
    newCols := [];
    for i := 0 to |norms|
      invariant newCols == Renamed(norms[..i])
      invariant forall n :: n in seen <==> n in norms[..i]
      invariant forall n :: n in seen ==> seen[n] + 1 == multiset(norms[..i])[n]
    {
      var normalized := norms[i];
      assert norms[..i + 1] == norms[..i] + [normalized];
      RenamedSnoc(norms[..i], normalized);
      if normalized in seen {
        seen := seen[normalized := seen[normalized] + 1];
        normalized := normalized + "_" + NatToString(seen[normalized]);
      } else {
        seen := seen[normalized := 0];
      }
      newCols := newCols + [normalized];
    }
    assert norms[..|norms|] == norms;
  }

  /** Renaming one more column appends its name and changes no earlier one. */
  lemma RenamedSnoc(norms: seq<string>, x: string)
    ensures Renamed(norms + [x]) == Renamed(norms) + [Suffixed(x, multiset(norms)[x])]
  {
    var s := norms + [x];
    assert s[..|norms|] == norms;
    assert forall j :: 0 <= j < |norms| ==> s[..j] == norms[..j];
  }

  /** `clean_df`'s header: every column name normalised, then renamed. */
  method CleanColumns(cols: seq<string>) returns (newCols: seq<string>)
    ensures newCols == CleanNames(cols)
  {
    var norms := NormalizeAll(cols);
    newCols := RenameColumns(norms);
  }

  /** The first occurrence of a name keeps it; the `k`-th repeat gets the
      suffix `_k`. */
  lemma RenamedSuffixes(norms: seq<string>, i: nat)
    requires i < |norms|
    ensures Renamed(norms)[i] == Suffixed(norms[i], |set j | 0 <= j < i && norms[j] == norms[i]|)
  {
    RepeatsCount(norms[..i], norms[i]);
    assert (set j | 0 <= j < |norms[..i]| && norms[..i][j] == norms[i])
        == (set j | 0 <= j < i && norms[j] == norms[i]);
  }

  /** The multiplicity of `x` in `s` is the number of positions holding it. */
  lemma {:induction false} RepeatsCount(s: seq<string>, x: string)
    ensures multiset(s)[x] == |set j | 0 <= j < |s| && s[j] == x|
    decreases |s|
  {
    if |s| > 0 {
      var t := s[..|s| - 1];
      RepeatsCount(t, x);
      assert s == t + [s[|s| - 1]];
      var before := set j | 0 <= j < |t| && t[j] == x;
      var after := set j | 0 <= j < |s| && s[j] == x;
      if s[|s| - 1] == x {
        assert after == before + {|s| - 1};
      } else {
        assert after == before;
      }
    }
  }

  /** As written, a suffixed name is not checked against the names already
      taken: a column that is itself called `n_1` collides with the renamed
      second `n`. */
  lemma RenamedCollides(n: string)
    ensures Renamed([n, n, n + "_1"]) == [n, n + "_1", n + "_1"]
  {
    var norms := [n, n, n + "_1"];
    var r := Renamed(norms);
    assert norms[..0] == [] && norms[..1] == [n] && norms[..2] == [n, n];
    assert NatToString(1) == "1";
    assert r[0] == Suffixed(n, 0) == n;
    assert multiset([n])[n] == 1;
    assert r[1] == Suffixed(n, 1) == n + "_1";
    assert n + "_1" != n by {
      assert |n + "_1"| == |n| + 2;
    }
    assert multiset([n, n])[n + "_1"] == 0;
    assert r[2] == Suffixed(n + "_1", 0);
  }

  /** The collision: `clean_df` turns a header whose first two columns
      differ only in case (such as `Dose`, `dose`, `dose_1`, three distinct
      cells, which `read_excel` keeps as they are) into two columns named
      `dose_1`. */
  lemma CleanNamesCollide(m: string)
    requires WordName(m)
    ensures var n := Lower(m);
      CleanNames([m, n, n + "_1"]) == [n, n + "_1", n + "_1"]
  {
    WordHeaderNormalizes(m);
    RenamedCollides(Lower(m));
  }

  lemma WordHeaderNormalizes(m: string)
    requires WordName(m)
    ensures var n := Lower(m);
      NormalizeAll([m, n, n + "_1"]) == [n, n, n + "_1"]
  {
    var n := Lower(m);
    var cols := [m, n, n + "_1"];
    LowerWordIsPlain(m);
    PlainNameSuffixed(n);
    LowerPlain(n);
    LowerPlain(n + "_1");
    WordsNormalizeAll(cols);
    assert LowerAll(cols) == [n, n, n + "_1"];
  }

  function LowerAll(cols: seq<string>): (r: seq<string>)
    ensures |r| == |cols| && forall i :: 0 <= i < |cols| ==> r[i] == Lower(cols[i])
  {
    seq(|cols|, i requires 0 <= i < |cols| => Lower(cols[i]))
  }

  /** Word names normalise to their lower-case forms. */
  lemma WordsNormalizeAll(cols: seq<string>)
    requires forall i :: 0 <= i < |cols| ==> WordName(cols[i])
    ensures NormalizeAll(cols) == LowerAll(cols)
  {
    forall i | 0 <= i < |cols| ensures NormalizeAll(cols)[i] == LowerAll(cols)[i] {
      NormalizeWordName(cols[i]);
    }
  }

  lemma LowerPlain(x: string)
    requires PlainName(x)
    ensures WordName(x) && Lower(x) == x
  {
  }

  /** The concrete instance. */
  lemma CleanNamesCollideDose()
    ensures CleanNames(["Dose", "dose", "dose_1"]) == ["dose", "dose_1", "dose_1"]
  {
    var m := "Dose";
    assert WordName(m);
    CleanNamesCollide(m);
    assert Lower(m) == "dose";
    assert "dose" + "_1" == "dose_1";
  }

  lemma PlainNameSuffixed(n: string)
    requires forall i :: 0 <= i < |n| ==> PlainNameChar(n[i])
    ensures forall i :: 0 <= i < |n + "_1"| ==> PlainNameChar((n + "_1")[i])
  {
  }

  /** `x` is `name` with some repeat suffix (possibly none). */
  ghost predicate SuffixOf(x: string, name: string) {
    exists k :: x == Suffixed(name, k)
  }

  /** Different suffix counts give different names. */
  lemma SuffixedInjective(name: string, a: nat, b: nat)
    requires Suffixed(name, a) == Suffixed(name, b)
    ensures a == b
  {
    if a != 0 && b != 0 {
      assert NatToString(a) == Suffixed(name, a)[|name| + 1..];
      assert NatToString(b) == Suffixed(name, b)[|name| + 1..];
      NatToStringInjective(a, b);
    }
  }

  lemma {:induction false} NatToStringInjective(a: nat, b: nat)
    requires NatToString(a) == NatToString(b)
    ensures a == b
    decreases a
  {
    var s := NatToString(a);
    if a < 10 && b < 10 {
      assert DigitChar(a) == s[0] == DigitChar(b);
    } else if a >= 10 && b >= 10 {
      assert DigitChar(a % 10) == s[|s| - 1] == DigitChar(b % 10);
      assert NatToString(a / 10) == s[..|s| - 1] == NatToString(b / 10);
      NatToStringInjective(a / 10, b / 10);
    }
  }

  /** The renaming with the collision removed: each column takes the first of
      `name`, `name_1`, `name_2`, ... that no earlier column holds. Without
      collisions this is the rule above. */
  method RenameColumnsUnique(norms: seq<string>) returns (newCols: seq<string>)
    ensures |newCols| == |norms|
    ensures Distinct(newCols)
    ensures forall i :: 0 <= i < |norms| ==> SuffixOf(newCols[i], norms[i])
    ensures forall i :: 0 <= i < |norms| && norms[i] !in newCols[..i] ==> newCols[i] == norms[i]
  {
    var used: set<string> := {};
    newCols := [];
    for i := 0 to |norms|
      invariant |newCols| == i
      invariant forall x :: x in used <==> x in newCols
      invariant Distinct(newCols)
      invariant forall j :: 0 <= j < i ==> SuffixOf(newCols[j], norms[j])
      invariant forall j :: 0 <= j < i && norms[j] !in newCols[..j] ==> newCols[j] == norms[j]
    {
      var n := norms[i];
      var k := 0;
      ghost var tried: set<string> := {};
      while Suffixed(n, k) in used
        invariant tried <= used
        invariant forall x :: x in tried ==> exists j :: 0 <= j < k && x == Suffixed(n, j)
        invariant k > 0 ==> n in used
        decreases used - tried
      {
        if Suffixed(n, k) in tried {
          var j :| 0 <= j < k && Suffixed(n, k) == Suffixed(n, j);
          SuffixedInjective(n, k, j);
        }
        tried := tried + {Suffixed(n, k)};
        k := k + 1;
      }
      assert newCols[..i] == newCols;
      assert SuffixOf(Suffixed(n, k), n);
      newCols := newCols + [Suffixed(n, k)];
      used := used + {Suffixed(n, k)};
      assert forall j :: 0 <= j < i ==> newCols[..j] == newCols[..i][..j];
    }
  }

  /** `clean_df`'s header with the corrected renaming: the names are unique. */
  method CleanColumnsUnique(cols: seq<string>) returns (newCols: seq<string>)
    ensures |newCols| == |cols|
    ensures Distinct(newCols)
    ensures forall i :: 0 <= i < |cols| ==> SuffixOf(newCols[i], NormalizeColName(cols[i]))
  {
    var norms := NormalizeAll(cols);
    newCols := RenameColumnsUnique(norms);
  }

  // ---------------------------------------------------------------------------
  // Null markers

  /** `df.replace({"NA": None, "None": None, "": None})` on one cell; a cell
      is `None` when empty and otherwise holds its text. */
  function CleanCell(v: Option<string>): (r: Option<string>)
    ensures r.None? <==> v.None? || v.value in {"NA", "None", ""}
    ensures r.Some? ==> r == v
  {
    if v.Some? && v.value in {"NA", "None", ""} then None else v
  }

  function CleanCells(col: seq<Option<string>>): (r: seq<Option<string>>)
    ensures |r| == |col|
    ensures forall i :: 0 <= i < |r| ==> r[i] == CleanCell(col[i])
  {
    seq(|col|, i requires 0 <= i < |col| => CleanCell(col[i]))
  }

  /** After the replacement no marker is left, and a second replacement
      changes nothing. */
  lemma CleanCellsIdempotent(col: seq<Option<string>>)
    ensures forall i :: 0 <= i < |col| ==>
              CleanCells(col)[i] != Some("NA") && CleanCells(col)[i] != Some("None")
              && CleanCells(col)[i] != Some("")
    ensures CleanCells(CleanCells(col)) == CleanCells(col)
  {
  }

  // ---------------------------------------------------------------------------
  // Formula columns

  /** A data-frame column: whether its dtype is `object` (text), and each
      cell's `str()` rendering, `None` for a missing value. */
  datatype Column = Column(isText: bool, cells: seq<Option<string>>)

  const SampleSize := 10

  /** `series.dropna()`. */
  function NonNull(cells: seq<Option<string>>): seq<string>
    decreases |cells|
  {
    if |cells| == 0 then []
    else if cells[0].Some? then [cells[0].value] + NonNull(cells[1..])
    else NonNull(cells[1..])
  }

  /** Some value of the sample starts with `=`. */
  predicate AnyFormula(sample: seq<string>) {
    exists v :: v in sample && StartsWith(v, "=")
  }

  /** The formula check: a text column one of whose first ten non-null
      values starts with `=`. */
  predicate IsFormulaColumn(col: Column) {
    var sample := Take(NonNull(col.cells), SampleSize);
    col.isText && |sample| > 0 && AnyFormula(sample)
  }

  /** The check, characterised cell by cell: the column is text and some cell
      holding a formula has fewer than ten non-null cells before it. */
  lemma FormulaColumnIff(col: Column)
    ensures IsFormulaColumn(col) <==>
      (col.isText &&
       exists i :: 0 <= i < |col.cells| && col.cells[i].Some? && StartsWith(col.cells[i].value, "=")
                   && |NonNull(col.cells[..i])| < SampleSize)
  {
    FormulaInPrefix(col.cells, SampleSize);
  }

  /** A formula among the first `n` non-null values is a formula cell with
      fewer than `n` non-null cells before it. */
  lemma {:induction false} FormulaInPrefix(cells: seq<Option<string>>, n: nat)
    ensures AnyFormula(Take(NonNull(cells), n)) <==>
      exists i :: 0 <= i < |cells| && cells[i].Some? && StartsWith(cells[i].value, "=")
                  && |NonNull(cells[..i])| < n
    decreases |cells|
  {
    if |cells| > 0 {
      var rest := cells[1..];
      FormulaInPrefix(rest, if cells[0].Some? && n > 0 then n - 1 else n);
      assert forall i :: 1 <= i <= |cells| ==> cells[..i] == [cells[0]] + rest[..i - 1];
      assert forall i :: 1 <= i <= |cells| ==> cells[..i][1..] == rest[..i - 1];
      assert cells[..0] == [];
      if cells[0].Some? && n > 0 {
        assert Take(NonNull(cells), n) == [cells[0].value] + Take(NonNull(rest), n - 1);
      }
      if cells[0].Some? && n == 0 {
        forall i | 1 <= i < |cells| ensures |NonNull(cells[..i])| >= 1 {
          assert cells[..i][0] == cells[0];
        }
      }
    }
  }

  /** The loop over the columns: every formula column is replaced by nulls
      in place, every other column is kept. */
  method DropFormulaColumns(table: array<Column>)
    modifies table
    ensures forall idx :: 0 <= idx < table.Length ==>
      table[idx] == if IsFormulaColumn(old(table[idx]))
                    then Column(old(table[idx]).isText, Repeat(None, |old(table[idx]).cells|))
                    else old(table[idx])
  {
    for idx := 0 to table.Length
      invariant forall j :: 0 <= j < idx ==>
        table[j] == if IsFormulaColumn(old(table[j]))
                    then Column(old(table[j]).isText, Repeat(None, |old(table[j]).cells|))
                    else old(table[j])
      invariant forall j :: idx <= j < table.Length ==> table[j] == old(table[j])
    {
      var series := table[idx];
      if series.isText {
        var sample := Take(NonNull(series.cells), SampleSize);
        if |sample| > 0 && AnyFormula(sample) {
          table[idx] := Column(series.isText, Repeat(None, |series.cells|));
        }
      }
    }
  }

  /** After the loop no column is a formula column any more. */
  lemma NulledColumnIsClean(col: Column)
    ensures !IsFormulaColumn(Column(col.isText, Repeat(None, |col.cells|)))
  {
    NonNullOfNulls(|col.cells|);
  }

  lemma {:induction false} NonNullOfNulls(n: nat)
    ensures NonNull(Repeat<Option<string>>(None, n)) == []
    decreases n
  {
    if n > 0 {
      assert Repeat<Option<string>>(None, n)[1..] == Repeat(None, n - 1);
      NonNullOfNulls(n - 1);
    }
  }
}
