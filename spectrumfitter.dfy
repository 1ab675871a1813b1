// The spectrum fitter's main window, without its widgets: the list of recent
// sessions kept in the settings, the display-style switch, the index guard of
// the file list, and the text `save_session_as` writes. The dialogs, the
// plots, the fitter's models and the file system are parameters.
module SpectrumFitter {
  import opened Common

  /** What indexing past the end of a list raises. */
  const INDEX_ERROR := "IndexError: list index out of range"

  /** At most this many recent sessions are remembered. */
  const MAX_RECENT: nat := 5

  // ----- Recent sessions -----

  /** `list.remove(x)` when `x` is in the list (its first occurrence goes), the list itself otherwise. */
  function RemoveFirst(s: seq<string>, x: string): (r: seq<string>)
    ensures x !in s ==> r == s
    ensures x in s ==> |r| == |s| - 1
    ensures multiset(r) + (if x in s then multiset{x} else multiset{}) == multiset(s)
  {
    if |s| == 0 then s
    else
      assert s == [s[0]] + s[1..];
      if s[0] == x then s[1..]
      else [s[0]] + RemoveFirst(s[1..], x)
  }

  /** The recent list after `filename` was saved or loaded: in front, then the others, five at most. */
  function Recent(stored: seq<string>, filename: string): (r: seq<string>)
  {
    var l := [filename] + RemoveFirst(stored, filename);
    l[..if |l| < MAX_RECENT then |l| else MAX_RECENT]
  }

  predicate Distinct(s: seq<string>)
  {
    forall i, j :: 0 <= i < j < |s| ==> s[i] != s[j]
  }

  /** A sequence is `s` with some elements left out, in the same order. */
  predicate Subsequence(r: seq<string>, s: seq<string>)
    decreases |s|
  {
    if |r| == 0 then true
    else if |s| == 0 then false
    else if r[0] == s[0] then Subsequence(r[1..], s[1..])
    else Subsequence(r, s[1..])
  }

  lemma {:induction false} RemoveFirstKeepsOrder(s: seq<string>, x: string)
    ensures Subsequence(RemoveFirst(s, x), s)
    decreases |s|
  {
    if |s| > 0 && s[0] != x {
      RemoveFirstKeepsOrder(s[1..], x);
      assert ([s[0]] + RemoveFirst(s[1..], x))[1..] == RemoveFirst(s[1..], x);
    } else if |s| > 0 {
      SubsequenceOfTail(s[1..], s);
    }
  }

  /** Removing the first occurrence of a name from a list without duplicates removes the name. */
  lemma {:induction false} RemoveFirstDistinct(s: seq<string>, x: string)
    requires Distinct(s)
    ensures x !in RemoveFirst(s, x)
    ensures Distinct(RemoveFirst(s, x))
    decreases |s|
  {
    if |s| > 0 {
      DistinctTail(s);
      if s[0] != x {
        RemoveFirstDistinct(s[1..], x);
        var t := RemoveFirst(s[1..], x);
        assert s[0] !in t by {
          assert s[0] !in multiset(s[1..]);
        }
        ConsDistinct(s[0], t);
      }
    }
  }

  lemma DistinctTail(s: seq<string>)
    requires |s| > 0 && Distinct(s)
    ensures s[0] !in s[1..] && Distinct(s[1..])
  {
    assert forall j :: 1 <= j < |s| ==> s[j] != s[0];
    assert forall i, j :: 0 <= i < j < |s| - 1 ==> s[1..][i] == s[i + 1] && s[1..][j] == s[j + 1];
  }

  lemma ConsDistinct(a: string, t: seq<string>)
    requires a !in t && Distinct(t)
    ensures Distinct([a] + t)
  {
    var r := [a] + t;
    forall i, j | 0 <= i < j < |r|
      ensures r[i] != r[j]
    {
      assert r[j] == t[j - 1];
      if i > 0 {
        assert r[i] == t[i - 1];
      }
    }
  }

  lemma {:induction false} SubsequenceOfTail(t: seq<string>, s: seq<string>)
    requires |s| > 0 && t == s[1..]
    ensures Subsequence(t, s)
    decreases |s|
  {
    SubsequenceRefl(t);
    if |t| > 0 && t[0] == s[0] {
      SubsequenceOfTail(t[1..], t);
      assert Subsequence(t[1..], s[1..]);
    }
  }

  lemma {:induction false} SubsequenceRefl(s: seq<string>)
    ensures Subsequence(s, s)
    decreases |s|
  {
    if |s| > 0 {
      SubsequenceRefl(s[1..]);
    }
  }

  lemma {:induction false} SubsequencePrefix(r: seq<string>, s: seq<string>, n: nat)
    requires Subsequence(r, s) && n <= |r|
    ensures Subsequence(r[..n], s)
    decreases |s|
  {
    if n > 0 && |s| > 0 {
      if r[0] == s[0] {
        SubsequencePrefix(r[1..], s[1..], n - 1);
        assert r[..n][1..] == r[1..][..n - 1];
      } else {
        SubsequencePrefix(r, s[1..], n);
      }
    }
  }

  /**
   * The saved file heads the list and appears in it once; the list holds at
   * most five sessions, no duplicates, and the others keep their order.
   */
  lemma RecentIsMostRecentFirst(stored: seq<string>, filename: string)
    requires Distinct(stored)
    ensures var r := Recent(stored, filename);
      && |r| >= 1 && r[0] == filename
      && filename !in r[1..]
      && |r| <= MAX_RECENT
      && Distinct(r)
      && Subsequence(r[1..], stored)
  {
    var r := Recent(stored, filename);
    RecentShape(stored, filename);
    RecentDistinct(stored, filename);
    RemoveFirstKeepsOrder(stored, filename);
    SubsequencePrefix(RemoveFirst(stored, filename), stored, |r| - 1);
  }

  lemma RecentShape(stored: seq<string>, filename: string)
    ensures var r := Recent(stored, filename);
      && 1 <= |r| <= MAX_RECENT && r[0] == filename
      && |r| - 1 <= |RemoveFirst(stored, filename)|
      && r[1..] == RemoveFirst(stored, filename)[..|r| - 1]
  {
    var rest := RemoveFirst(stored, filename);
    var l := [filename] + rest;
    var n := if |l| < MAX_RECENT then |l| else MAX_RECENT;
    assert Recent(stored, filename) == l[..n];
    assert l[..n][1..] == rest[..n - 1];
  }

  lemma RecentDistinct(stored: seq<string>, filename: string)
    requires Distinct(stored)
    ensures var r := Recent(stored, filename); |r| >= 1 && filename !in r[1..] && Distinct(r)
  {
    var rest := RemoveFirst(stored, filename);
    RemoveFirstDistinct(stored, filename);
    var l := [filename] + rest;
    var n := if |l| < MAX_RECENT then |l| else MAX_RECENT;
    assert Recent(stored, filename) == l[..n];
    assert l[..n][1..] == rest[..n - 1];
    NotInPrefix(rest, filename, n - 1);
    ConsDistinct(filename, rest);
    DistinctPrefix(l, n);
  }

  lemma NotInPrefix(s: seq<string>, x: string, n: nat)
    requires x !in s && n <= |s|
    ensures x !in s[..n]
  {
    assert forall y :: y in s[..n] ==> y in s;
  }

  lemma DistinctPrefix(s: seq<string>, n: nat)
    requires Distinct(s) && n <= |s|
    ensures Distinct(s[..n])
  {
  }

  /** A session already at the head leaves the list as it is: saving it again changes nothing. */
  lemma RecentIdempotent(stored: seq<string>, filename: string)
    ensures Recent(Recent(stored, filename), filename) == Recent(stored, filename)
  {
    var r := Recent(stored, filename);
    assert r[0] == filename;
    assert RemoveFirst(r, filename) == r[1..];
    assert [filename] + r[1..] == r;
  }

  /** The sessions kept are exactly the newest ones: an older session survives while fewer than five are newer. */
  lemma RecentKeepsNewest(stored: seq<string>, filename: string, i: nat)
    requires i < |stored| && i < MAX_RECENT - 1 && stored[i] != filename && filename !in stored[..i]
    ensures stored[i] in Recent(stored, filename)
  {
    var rest := RemoveFirst(stored, filename);
    RemoveFirstPrefix(stored, filename, i);
    assert rest[i] == stored[i];
    var l := [filename] + rest;
    assert l[i + 1] == stored[i];
  }

  lemma {:induction false} RemoveFirstPrefix(s: seq<string>, x: string, i: nat)
    requires i < |s| && x !in s[..i + 1]
    ensures |RemoveFirst(s, x)| > i && RemoveFirst(s, x)[i] == s[i]
    decreases i
  {
    assert s[0] == s[..i + 1][0];
    if i > 0 {
      assert s[1..][..i] == s[..i + 1][1..];
      RemoveFirstPrefix(s[1..], x, i - 1);
    }
  }

  // ----- Sorting file names as Python compares strings -----

  /** `a <= b` on Python strings: by code point, a prefix first. */
  predicate Below(a: string, b: string)
    decreases |a|
  {
    if |a| == 0 then true
    else if |b| == 0 then false
    else if a[0] != b[0] then a[0] < b[0]
    else Below(a[1..], b[1..])
  }

  lemma {:induction false} BelowTotal(a: string, b: string)
    ensures Below(a, b) || Below(b, a)
    decreases |a|
  {
    if |a| > 0 && |b| > 0 && a[0] == b[0] {
      BelowTotal(a[1..], b[1..]);
    }
  }

  lemma {:induction false} BelowTransitive(a: string, b: string, c: string)
    requires Below(a, b) && Below(b, c)
    ensures Below(a, c)
    decreases |a|
  {
    if |a| > 0 && |b| > 0 && |c| > 0 && a[0] == b[0] && b[0] == c[0] {
      BelowTransitive(a[1..], b[1..], c[1..]);
    }
  }

  lemma {:induction false} BelowAntisymmetric(a: string, b: string)
    requires Below(a, b) && Below(b, a)
    ensures a == b
    decreases |a|
  {
    if |a| > 0 && |b| > 0 {
      BelowAntisymmetric(a[1..], b[1..]);
      assert a == [a[0]] + a[1..] && b == [b[0]] + b[1..];
    }
  }

  predicate SortedNames(s: seq<string>)
  {
    forall i, j :: 0 <= i < j < |s| ==> Below(s[i], s[j])
  }

  /** Puts `x` into a sorted list at its place. */
  function Insert(x: string, s: seq<string>): (r: seq<string>)
    ensures multiset(r) == multiset(s) + multiset{x}
    ensures |r| == |s| + 1
  {
    if |s| == 0 then [x]
    else if Below(x, s[0]) then [x] + s
    else
      assert s == [s[0]] + s[1..];
      [s[0]] + Insert(x, s[1..])
  }

  lemma {:induction false} InsertSorted(x: string, s: seq<string>)
    requires SortedNames(s)
    ensures SortedNames(Insert(x, s))
    decreases |s|
  {
    if |s| > 0 {
      if Below(x, s[0]) {
        var r := [x] + s;
        forall i, j | 0 <= i < j < |r|
          ensures Below(r[i], r[j])
        {
          if i == 0 && j > 1 {
            BelowTransitive(x, s[0], s[j - 1]);
          } else if i > 0 {
            assert r[i] == s[i - 1] && r[j] == s[j - 1];
          }
        }
      } else {
        BelowTotal(x, s[0]);
        InsertSorted(x, s[1..]);
        var t := Insert(x, s[1..]);
        forall k | 0 <= k < |t|
          ensures Below(s[0], t[k])
        {
          assert t[k] in multiset(t);
          assert t[k] == x || t[k] in multiset(s[1..]);
          if t[k] != x {
            var m :| 0 <= m < |s[1..]| && s[1..][m] == t[k];
            assert s[m + 1] == t[k];
          }
        }
        var r := [s[0]] + t;
        forall i, j | 0 <= i < j < |r|
          ensures Below(r[i], r[j])
        {
          if i == 0 {
            assert r[j] == t[j - 1];
          } else {
            assert r[i] == t[i - 1] && r[j] == t[j - 1];
          }
        }
      }
    }
  }

  /** `sorted(names)`, by insertion. */
  function Sort(s: seq<string>): (r: seq<string>)
    ensures multiset(r) == multiset(s)
    ensures |r| == |s|
  {
    if |s| == 0 then []
    else
      assert s == s[..|s| - 1] + [s[|s| - 1]];
      Insert(s[|s| - 1], Sort(s[..|s| - 1]))
  }

  lemma {:induction false} SortSorted(s: seq<string>)
    ensures SortedNames(Sort(s))
    decreases |s|
  {
    if |s| > 0 {
      SortSorted(s[..|s| - 1]);
      InsertSorted(s[|s| - 1], Sort(s[..|s| - 1]));
    }
  }

  /** Two sorted lists with the same names are the same list: `sorted` does not depend on the order of the dictionary. */
  lemma {:induction false} SortedUnique(r: seq<string>, t: seq<string>)
    requires SortedNames(r) && SortedNames(t) && multiset(r) == multiset(t)
    ensures r == t
    decreases |r|
  {
    assert |r| == |multiset(r)| && |t| == |multiset(t)|;
    if |r| > 0 {
      assert r[0] in multiset(t) && t[0] in multiset(r);
      var i :| 0 <= i < |t| && t[i] == r[0];
      var j :| 0 <= j < |r| && r[j] == t[0];
      BelowTotal(r[0], r[0]);
      BelowTotal(t[0], t[0]);
      assert Below(t[0], t[i]);
      assert Below(r[0], r[j]);
      BelowAntisymmetric(r[0], t[0]);
      HeadAndTail(r);
      HeadAndTail(t);
      assert multiset(r[1..]) == multiset(r) - multiset{r[0]};
      assert multiset(t[1..]) == multiset(t) - multiset{t[0]};
      SortedUnique(r[1..], t[1..]);
    }
  }

  lemma HeadAndTail(s: seq<string>)
    requires |s| > 0
    ensures s == [s[0]] + s[1..]
    ensures multiset(s) == multiset{s[0]} + multiset(s[1..])
    ensures SortedNames(s) ==> SortedNames(s[1..])
  {
    assert s == [s[0]] + s[1..];
  }

  /** Sorting keeps exactly the names it was given. */
  lemma SortKeepsNames(s: seq<string>)
    ensures forall k :: k in Sort(s) <==> k in s
  {
    assert forall k :: k in Sort(s) <==> k in multiset(Sort(s));
    assert forall k :: k in s <==> k in multiset(s);
  }

  /**
   * Fit results are written in sorted file-name order, one row per fitted
   * file, whatever the order the fitter stored them in.
   */
  lemma SortIsSorted(names: seq<string>, other: seq<string>)
    requires multiset(other) == multiset(names)
    ensures SortedNames(Sort(names))
    ensures multiset(Sort(names)) == multiset(names)
    ensures Sort(other) == Sort(names)
  {
    SortSorted(names);
    SortSorted(other);
    SortedUnique(Sort(other), Sort(names));
  }

  // ----- The display style -----

  /** `toggle_display_style`: magnitude/phase becomes real/imaginary, anything else magnitude/phase. */
  function Toggled(style: string): (r: string)
    ensures style == "MP" ==> r == "RI"
    ensures style != "MP" ==> r == "MP"
  {
    if style == "MP" then "RI" else "MP"
  }

  /** Two toggles give back either style; from any other value two toggles reach real/imaginary. */
  lemma ToggleTwice(style: string)
    ensures style == "MP" || style == "RI" ==> Toggled(Toggled(style)) == style
    ensures Toggled(style) == "MP" || Toggled(style) == "RI"
    ensures Toggled(style) != style
  {
  }

  // ----- The session file -----

  /** `path.replace('\\', '/')` */
  function Slashes(path: string): (r: string)
    ensures |r| == |path| && '\\' !in r
    ensures forall i :: 0 <= i < |path| && path[i] != '\\' ==> r[i] == path[i]
  {
    seq(|path|, i requires 0 <= i < |path| => if path[i] == '\\' then '/' else path[i])
  }

  /**
   * What the data loader holds: the DUT files, the folders and files as paths
   * relative to the session file's folder, and the access-resistance field.
   * `thru` and `dummy` are given only when loaded and switched on.
   */
  datatype Loader = Loader(dutFiles: seq<string>, dutFolder: string, thru: Option<string>,
                           dummy: Option<string>, raText: string)

  /** A loaded model: its file's base name, function, fit method, parameter names and the fitted values by file. */
  datatype Model = Model(file: string, func: string, fitMethod: string, params: seq<string>,
                         fitted: map<string, map<string, string>>, order: seq<string>)

  predicate ValidModel(m: Model)
  {
    && m.fitted.Keys == (set k | k in m.order)
    && Distinct(m.order)
  }

  /** The access resistance as written: text that does not parse counts as 0. */
  function Ra(raText: string, float: string -> Option<real>): real
  {
    match float(raText)
    case None => 0.0
    case Some(x) => x
  }

  /** The `# ra:` line, only for a non-zero access resistance. */
  function RaLine(raText: string, float: string -> Option<real>, str: real -> string): (r: string)
    ensures r != "" <==> Ra(raText, float) != 0.0
    ensures r != "" ==> r == "# ra: " + str(Ra(raText, float)) + "\n"
  {
    var ra := Ra(raText, float);
    if ra != 0.0 then "# ra: " + str(ra) + "\n" else ""
  }

  /** The `# dut:` line: the single file when there is one, the folder otherwise. */
  function DutLine(l: Loader): (r: string)
    ensures |l.dutFiles| == 1 ==> r == "# dut: " + Slashes(PathJoin(l.dutFolder, l.dutFiles[0])) + "\n"
    ensures |l.dutFiles| != 1 ==> r == "# dut: " + Slashes(l.dutFolder) + "\n"
  {
    if |l.dutFiles| == 1 then "# dut: " + Slashes(PathJoin(l.dutFolder, l.dutFiles[0])) + "\n"
    else "# dut: " + Slashes(l.dutFolder) + "\n"
  }

  /** The header lines written whether or not a model is loaded. */
  function Header(l: Loader, fittedParam: string, float: string -> Option<real>, str: real -> string): string
  {
    "# fitting results generated by P13pt spectrum fitter\n"
    + DutLine(l)
    + (if l.thru.Some? then "# thru: " + Slashes(l.thru.value) + "\n" else "")
    + (if l.dummy.Some? then "# dummy: " + Slashes(l.dummy.value) + "\n" else "")
    + "# fitted_param: " + fittedParam + "\n"
    + RaLine(l.raText, float, str)
  }

  /** Each item followed by a tab. */
  function Tabbed(items: seq<string>): string
  {
    if |items| == 0 then "" else Tabbed(items[..|items| - 1]) + items[|items| - 1] + "\t"
  }

  /** The model's lines: file, function, fit method (when there is one) and the start of the column names. */
  function ModelLines(m: Model): string
  {
    "# model: " + Slashes(m.file) + "\n"
    + "# model_func: " + m.func + "\n"
    + (if m.fitMethod != "No fit methods found" then "# fit_method: " + m.fitMethod + "\n" else "")
    + "# filename\t"
  }

  /** The rest of the column names: the first DUT file's parameters, then the model's. */
  function Columns(m: Model, keys: seq<string>): string
  {
    Tabbed(keys) + Join(m.params, "\t") + "\n"
  }

  /** What was written to the file, and the exception that stopped the writing, if any. */
  datatype Written = Written(text: string, raised: Option<string>)

  /**
   * The parameter cells of a row: the value parsed from the row's file name
   * for each key of the first DUT file's name; a key it lacks raises.
   */
  function Cells(name: string, keys: seq<string>, cell: (string, string) -> Option<string>): Written
  {
    if |keys| == 0 then Written("", None)
    else
      var w := Cells(name, keys[..|keys| - 1], cell);
      if w.raised.Some? then w
      else match cell(name, keys[|keys| - 1])
        case None => Written(w.text, Some("KeyError: " + keys[|keys| - 1]))
        case Some(v) => Written(w.text + v + "\t", None)
  }

  /** The fitted values of a file in the model's parameter order, or the first missing name. */
  function FitValues(values: map<string, string>, params: seq<string>): Result<seq<string>>
  {
    if |params| == 0 then Ok([])
    else match FitValues(values, params[..|params| - 1])
      case Err(e) => Err(e)
      case Ok(vs) =>
        if params[|params| - 1] in values then Ok(vs + [values[params[|params| - 1]]])
        else Err("KeyError: " + params[|params| - 1])
  }

  /** One row: the file name, its parameter cells, then the fitted values joined by tabs. */
  function Row(m: Model, name: string, keys: seq<string>, cell: (string, string) -> Option<string>): Written
    requires name in m.fitted
  {
    var c := Cells(name, keys, cell);
    if c.raised.Some? then Written(name + "\t" + c.text, c.raised)
    else match FitValues(m.fitted[name], m.params)
      case Err(e) => Written(name + "\t" + c.text, Some(e))
      case Ok(vs) => Written(name + "\t" + c.text + Join(vs, "\t") + "\n", None)
  }

  /** The rows of the files in `names`, in turn, until one raises. */
  function Rows(m: Model, names: seq<string>, keys: seq<string>, cell: (string, string) -> Option<string>): Written
    requires forall k :: k in names ==> k in m.fitted
  {
    if |names| == 0 then Written("", None)
    else
      var w := Rows(m, names[..|names| - 1], keys, cell);
      if w.raised.Some? then w
      else
        var row := Row(m, names[|names| - 1], keys, cell);
        Written(w.text + row.text, row.raised)
  }

  /**
   * The whole file `save_session_as` writes: the header, then with a model
   * its lines and one row per fitted file in sorted order. The columns come
   * from the first DUT file's name, so a model without DUT files raises.
   */
  function SessionText(l: Loader, fittedParam: string, model: Option<Model>, float: string -> Option<real>,
                       str: real -> string, keysOf: string -> seq<string>, cell: (string, string) -> Option<string>): Written
    requires model.Some? ==> ValidModel(model.value)
  {
    var head := Header(l, fittedParam, float, str);
    if model.None? then Written(head, None)
    else if |l.dutFiles| == 0 then Written(head + ModelLines(model.value), Some(INDEX_ERROR))
    else
      var m := model.value;
      var keys := keysOf(l.dutFiles[0]);
      SortKeepsNames(m.order);
      var rows := Rows(m, Sort(m.order), keys, cell);
      Written(head + ModelLines(m) + Columns(m, keys) + rows.text, rows.raised)
  }

  /** A row's parameter cells are all written exactly when the file's name has every key; otherwise the first missing key raises. */
  lemma {:induction false} CellsComplete(name: string, keys: seq<string>, cell: (string, string) -> Option<string>)
    ensures Cells(name, keys, cell).raised.None? <==> forall k :: k in keys ==> cell(name, k).Some?
    ensures Cells(name, keys, cell).raised.Some? ==>
      exists k :: k in keys && cell(name, k).None? && Cells(name, keys, cell).raised == Some("KeyError: " + k)
    decreases |keys|
  {
    if |keys| > 0 {
      var init := keys[..|keys| - 1];
      CellsComplete(name, init, cell);
      assert keys == init + [keys[|keys| - 1]];
    }
  }

  /** The fitted values come in the model's parameter order; a parameter without a value raises. */
  lemma {:induction false} FitValuesInOrder(values: map<string, string>, params: seq<string>)
    ensures FitValues(values, params).Ok? <==> forall p :: p in params ==> p in values
    ensures FitValues(values, params).Ok? ==>
      var vs := FitValues(values, params).value;
      |vs| == |params| && forall i :: 0 <= i < |params| ==> vs[i] == values[params[i]]
    decreases |params|
  {
    if |params| > 0 {
      var init := params[..|params| - 1];
      FitValuesInOrder(values, init);
      assert params == init + [params[|params| - 1]];
    }
  }

  /** Without an exception, the rows of two runs of files are the rows of the first run followed by those of the second. */
  lemma {:induction false} RowsAppend(m: Model, a: seq<string>, b: seq<string>, keys: seq<string>, cell: (string, string) -> Option<string>)
    requires forall k :: k in a + b ==> k in m.fitted
    requires Rows(m, a + b, keys, cell).raised.None?
    ensures Rows(m, a, keys, cell).raised.None? && Rows(m, b, keys, cell).raised.None?
    ensures Rows(m, a + b, keys, cell).text == Rows(m, a, keys, cell).text + Rows(m, b, keys, cell).text
    decreases |b|
  {
    if |b| == 0 {
      assert a + b == a;
    } else {
      var b0 := b[..|b| - 1];
      assert (a + b)[..|a + b| - 1] == a + b0;
      assert (a + b)[|a + b| - 1] == b[|b| - 1];
      RowsAppend(m, a, b0, keys, cell);
    }
  }

  /** A file that raises nothing has a row of its own: its name, a tab, its cells, its fitted values and a line break. */
  lemma RowOfFile(m: Model, name: string, keys: seq<string>, cell: (string, string) -> Option<string>)
    requires name in m.fitted
    ensures Rows(m, [name], keys, cell) == Row(m, name, keys, cell)
    ensures Row(m, name, keys, cell).raised.None? ==>
      var t := Row(m, name, keys, cell).text;
      |t| > |name| && t[..|name| + 1] == name + "\t" && t[|t| - 1] == '\n'
  {
    assert [name][..0] == [];
  }

  /** The main window's state that the modelled slots read and change. */
  class MainWindow {
    /** The `recentSessions` settings entry, when present. */
    var recentSessions: Option<seq<string>>
    /** The texts of the recent-sessions menu's actions, in menu order. */
    var recentMenu: seq<string>
    var displayStyle: string
    var sessionFile: Option<string>
    var title: string
    /** The text of each file written so far. */
    var files: map<string, string>
    /** The DUT file the fitter was last given, and whether a spectrum was plotted for it. */
    var fitterFile: Option<string>
    var plotted: bool

    constructor (recentSessions: Option<seq<string>>, displayStyle: string)
      ensures this.recentSessions == recentSessions && this.displayStyle == displayStyle
      ensures recentMenu == [] && sessionFile == None && files == map[] && fitterFile == None && !plotted
      ensures title == "Spectrum Fitter - New session"
    {
      this.recentSessions := recentSessions;
      this.displayStyle := displayStyle;
      recentMenu := [];
      sessionFile := None;
      title := "Spectrum Fitter - New session";
      files := map[];
      fitterFile := None;
      plotted := false;
    }

    /** The stored recent list, empty when the settings have none. */
    function Stored(): seq<string>
      reads this
    {
      if recentSessions.Some? then recentSessions.value else []
    }

    /**
     * `update_recent_list(filename)`: with a file name the list becomes the
     * most-recent-first list and is stored; the menu is rebuilt from the list
     * either way. The empty name stands for no file name.
     */
    method UpdateRecentList(filename: string)
      modifies this`recentSessions, this`recentMenu
      ensures filename != "" ==> recentSessions == Some(Recent(old(Stored()), filename))
      ensures filename == "" ==> recentSessions == old(recentSessions)
      ensures recentMenu == Stored()
    {
      var recentlist := Stored();
      if filename != "" {
        if filename in recentlist {
          recentlist := RemoveFirst(recentlist, filename);
        }
        recentlist := [filename] + recentlist;
        recentlist := recentlist[..if |recentlist| < MAX_RECENT then |recentlist| else MAX_RECENT];
        recentSessions := Some(recentlist);
      }
      RebuildMenu(recentlist);
    }

    /** Clears the recent-sessions menu and adds one action per entry, in list order. */
    method RebuildMenu(entries: seq<string>)
      modifies this`recentMenu
      ensures recentMenu == entries
    {
      recentMenu := [];
      for i := 0 to |entries|
        invariant recentMenu == entries[..i]
      {
        recentMenu := recentMenu + [entries[i]];
      }
    }

    /** `toggle_display_style` */
    method ToggleDisplayStyle()
      modifies this`displayStyle
      ensures displayStyle == Toggled(old(displayStyle))
    {
      if displayStyle == "MP" {
        displayStyle := "RI";
      } else {
        displayStyle := "MP";
      }
    }

    /**
     * `selection_changed(i)`: a negative index (the list was cleared) does
     * nothing; otherwise the spectrum is plotted when there is one, and the
     * fitter is given the file. Past the end of the list the file name is
     * looked up in vain: before plotting when there is a spectrum (nothing is
     * plotted), after clearing the plot otherwise.
     */
    method SelectionChanged(i: int, dutFiles: seq<string>, hasSpectrum: bool) returns (raised: Option<string>)
      modifies this`plotted, this`fitterFile
      ensures i < 0 ==> raised == None && plotted == old(plotted) && fitterFile == old(fitterFile)
      ensures 0 <= i < |dutFiles| ==> raised == None && plotted == hasSpectrum && fitterFile == Some(dutFiles[i])
      ensures i >= 0 && i >= |dutFiles| ==>
        && raised == Some(INDEX_ERROR) && fitterFile == old(fitterFile)
        && plotted == (if hasSpectrum then old(plotted) else false)
    {
      if i < 0 {
        return None;
      }
      if hasSpectrum && i >= |dutFiles| {
        return Some(INDEX_ERROR);
      }
      plotted := hasSpectrum;
      if i >= |dutFiles| {
        return Some(INDEX_ERROR);
      }
      fitterFile := Some(dutFiles[i]);
      raised := None;
    }

    /**
     * `save_session_as(res_file)`: without a name the dialog's choice is used,
     * and without either nothing happens. A file that cannot be opened is
     * reported and nothing changes. Otherwise the session is written; unless
     * the writing raised, the file becomes the session and heads the recent list.
     */
    method SaveSessionAs(resFile: string, chosen: string, canOpen: bool, l: Loader, fittedParam: string,
                         model: Option<Model>, float: string -> Option<real>, str: real -> string,
                         keysOf: string -> seq<string>, cell: (string, string) -> Option<string>)
      returns (raised: Option<string>)
      requires model.Some? ==> ValidModel(model.value)
      modifies this`files, this`recentSessions, this`recentMenu, this`title, this`sessionFile
      ensures var file := if resFile != "" then resFile else chosen;
        var w := SessionText(l, fittedParam, model, float, str, keysOf, cell);
        && (file == "" || !canOpen ==>
              && raised == None && files == old(files)
              && recentSessions == old(recentSessions) && recentMenu == old(recentMenu)
              && title == old(title) && sessionFile == old(sessionFile))
        && (file != "" && canOpen ==> files == old(files)[file := w.text] && raised == w.raised)
        && (file != "" && canOpen && w.raised.None? ==>
              && recentSessions == Some(Recent(old(Stored()), file)) && recentMenu == Recent(old(Stored()), file)
              && title == "Spectrum Fitter - " + file && sessionFile == Some(file))
    {
      var file := resFile;
      if file == "" {
        file := chosen;
      }
      if file == "" || !canOpen {
        return None;
      }
      var text;
      text, raised := WriteSession(l, fittedParam, model, float, str, keysOf, cell);
      files := files[file := text];
      if raised.Some? {
        return;
      }
      Adopt(file);
    }

    /** A saved or loaded session file heads the recent list and names the window. */
    method Adopt(file: string)
      requires file != ""
      modifies this`recentSessions, this`recentMenu, this`title, this`sessionFile
      ensures recentSessions == Some(Recent(old(Stored()), file)) && recentMenu == Recent(old(Stored()), file)
      ensures title == "Spectrum Fitter - " + file && sessionFile == Some(file)
    {
      UpdateRecentList(file);
      title := "Spectrum Fitter - " + file;
      sessionFile := Some(file);
    }
  }

  /** Writes the session text: the header, then with a model its lines, the columns and the rows. */
  method WriteSession(l: Loader, fittedParam: string, model: Option<Model>, float: string -> Option<real>,
                      str: real -> string, keysOf: string -> seq<string>, cell: (string, string) -> Option<string>)
    returns (text: string, raised: Option<string>)
    requires model.Some? ==> ValidModel(model.value)
    ensures Written(text, raised) == SessionText(l, fittedParam, model, float, str, keysOf, cell)
  {
    text := Header(l, fittedParam, float, str);
    if model.None? {
      return text, None;
    }
    var m := model.value;
    text := text + ModelLines(m);
    if |l.dutFiles| == 0 {
      return text, Some(INDEX_ERROR);
    }
    var keys := keysOf(l.dutFiles[0]);
    text := text + Columns(m, keys);
    var filelist := Sort(m.order);
    SortKeepsNames(m.order);
    var rows;
    rows, raised := WriteRows(m, filelist, keys, cell);
    text := text + rows;
  }

  /** Writes one row per file in turn, stopping at the first that raises. */
  method WriteRows(m: Model, names: seq<string>, keys: seq<string>, cell: (string, string) -> Option<string>)
    returns (text: string, raised: Option<string>)
    requires forall k :: k in names ==> k in m.fitted
    ensures Written(text, raised) == Rows(m, names, keys, cell)
  {
    text := "";
    for i := 0 to |names|
      invariant Rows(m, names[..i], keys, cell) == Written(text, None)
    {
      assert names[..i + 1][..i] == names[..i];
      var row, r := WriteRow(m, names[i], keys, cell);
      text := text + row;
      if r.Some? {
        RowsStop(m, names, i + 1, keys, cell);
        return text, r;
      }
    }
    assert names[..|names|] == names;
    raised := None;
  }

  lemma {:induction false} RowsStop(m: Model, names: seq<string>, i: nat, keys: seq<string>, cell: (string, string) -> Option<string>)
    requires forall k :: k in names ==> k in m.fitted
    requires i <= |names| && Rows(m, names[..i], keys, cell).raised.Some?
    ensures Rows(m, names, keys, cell) == Rows(m, names[..i], keys, cell)
    decreases |names| - i
  {
    if i < |names| {
      assert names[..i + 1][..i] == names[..i];
      RowsStop(m, names, i + 1, keys, cell);
    } else {
      assert names[..i] == names;
    }
  }

  /** Writes one row: the name, each parameter cell in turn, then the fitted values. */
  method WriteRow(m: Model, name: string, keys: seq<string>, cell: (string, string) -> Option<string>)
    returns (text: string, raised: Option<string>)
    requires name in m.fitted
    ensures Written(text, raised) == Row(m, name, keys, cell)
  {
    var cells := "";
    for k := 0 to |keys|
      invariant Cells(name, keys[..k], cell) == Written(cells, None)
    {
      assert keys[..k + 1][..k] == keys[..k];
      var v := cell(name, keys[k]);
      if v.None? {
        CellsStop(name, keys, k + 1, cell);
        return name + "\t" + cells, Some("KeyError: " + keys[k]);
      }
      cells := cells + v.value + "\t";
    }
    assert keys[..|keys|] == keys;
    var vs := FitValues(m.fitted[name], m.params);
    if vs.Err? {
      return name + "\t" + cells, Some(vs.error);
    }
    text := name + "\t" + cells + Join(vs.value, "\t") + "\n";
    raised := None;
  }

  lemma {:induction false} CellsStop(name: string, keys: seq<string>, i: nat, cell: (string, string) -> Option<string>)
    requires i <= |keys| && Cells(name, keys[..i], cell).raised.Some?
    ensures Cells(name, keys, cell) == Cells(name, keys[..i], cell)
    decreases |keys| - i
  {
    if i < |keys| {
      assert keys[..i + 1][..i] == keys[..i];
      CellsStop(name, keys, i + 1, cell);
    } else {
      assert keys[..i] == keys;
    }
  }
}
