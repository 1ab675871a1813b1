// The P13 two-port spectrum files: the conversion of a P13 table to a
// Touchstone file, and the part of the `Network` constructor that decides who
// reads a file and builds the S matrix from a nine-column table. The table
// `numpy.genfromtxt` returns and the parameters parsed from a file name are
// parameters; skrf's own readers are not part of this model.
module RfSpectrum {
  import opened Common

  /** The Touchstone 1.1 option line: frequencies in Hz, S parameters as real/imaginary pairs, 50 ohm. */
  const HEADER: string := "# hz s ri r 50"

  const COLUMNS_ERROR: string := "Invalid number of columns"

  /** The constructor's message, with the spelling it has in the driver. */
  const TABLE_ERROR: string := "Invalid number of columnns"

  /** P13 order f, S11, S12, S21, S22 to Touchstone order f, S11, S21, S12, S22, by field. */
  const NEW_ORDER: seq<int> := [0, 1, 2, 5, 6, 3, 4, 7, 8]

  /** The fields of a nine-field line taken in `NEW_ORDER`. */
  function Reorder<T>(v: seq<T>): (r: seq<T>)
    requires |v| == 9
    ensures |r| == 9
    ensures r[0] == v[0] && r[1] == v[1] && r[2] == v[2] && r[7] == v[7] && r[8] == v[8]
    ensures r[3] == v[5] && r[4] == v[6] && r[5] == v[3] && r[6] == v[4]
  {
    seq(9, i requires 0 <= i < 9 => v[NEW_ORDER[i]])
  }

  /** Swapping the S12 and S21 pairs twice restores the original order. */
  lemma ReorderInvolution<T>(v: seq<T>)
    requires |v| == 9
    ensures Reorder(Reorder(v)) == v
  {
    var w := Reorder(Reorder(v));
    assert forall i | 0 <= i < 9 :: w[i] == v[i];
  }

  /** One converted line, or the exception for a line without nine space-separated fields. */
  function ConvertLine(line: string): (r: Result<string>)
    ensures r.Err? <==> |Split(Strip(line), ' ')| != 9
    ensures r.Err? ==> r.error == COLUMNS_ERROR
  {
    var values := Split(Strip(line), ' ');
    if |values| != 9 then Err(COLUMNS_ERROR) else Ok(Join(Reorder(values), " "))
  }

  /** What the converter has written to the new file, and the exception it raised, if any. */
  datatype Outcome = Outcome(written: seq<string>, raised: Option<string>)

  /**
   * `convert_to_touchstone`: the new file receives the header, then the
   * converted lines in turn until a line does not have nine fields.
   */
  function Converted(lines: seq<string>): Outcome
    decreases |lines|
  {
    if |lines| == 0 then Outcome([HEADER], None)
    else
      var o := Converted(lines[..|lines| - 1]);
      if o.raised.Some? then o
      else match ConvertLine(lines[|lines| - 1])
        case Err(e) => Outcome(o.written, Some(e))
        case Ok(x) => Outcome(o.written + [x], None)
  }

  /** `convert_to_touchstone`, reading the old file's lines and writing the new file's. */
  method ConvertToTouchstone(lines: seq<string>) returns (written: seq<string>, raised: Option<string>)
    ensures Converted(lines) == Outcome(written, raised)
  {
    written := [HEADER];
    for i := 0 to |lines|
      invariant Converted(lines[..i]) == Outcome(written, None)
    {
      assert lines[..i + 1][..i] == lines[..i];
      var values := Split(Strip(lines[i]), ' ');
      if |values| != 9 {
        ConvertedStops(lines, i + 1);
        return written, Some(COLUMNS_ERROR);
      }
      written := written + [Join(Reorder(values), " ")];
    }
    assert lines[..|lines|] == lines;
    raised := None;
  }

  /** Once a line raised, the later lines are not looked at. */
  lemma {:induction false} ConvertedStops(lines: seq<string>, i: nat)
    requires i <= |lines| && Converted(lines[..i]).raised.Some?
    ensures Converted(lines) == Converted(lines[..i])
    decreases |lines| - i
  {
    if i < |lines| {
      assert lines[..i + 1][..i] == lines[..i];
      ConvertedStops(lines, i + 1);
    } else {
      assert lines[..i] == lines;
    }
  }

  /**
   * The file starts with the header; without an exception it has one line per
   * input line, each that line converted; otherwise it stops before the first
   * line without nine fields, all earlier lines converted.
   */
  lemma {:induction false} ConvertedLines(lines: seq<string>)
    ensures var o := Converted(lines);
      && |o.written| >= 1 && o.written[0] == HEADER
      && |o.written| <= |lines| + 1
      && (forall i :: 1 <= i < |o.written| ==> ConvertLine(lines[i - 1]) == Ok(o.written[i]))
      && (o.raised.None? <==> |o.written| == |lines| + 1)
      && (o.raised.Some? ==> o.raised == Some(COLUMNS_ERROR) && ConvertLine(lines[|o.written| - 1]).Err?)
    decreases |lines|
  {
    if |lines| > 0 {
      var init := lines[..|lines| - 1];
      ConvertedLines(init);
      var o := Converted(init);
      assert forall j :: 0 <= j < |init| ==> lines[j] == init[j];
    }
  }

  /** A line splits at `sep` into the fields of its two sides. */
  lemma {:induction false} SplitConcat(a: string, b: string, sep: char)
    ensures Split(a + [sep] + b, sep) == Split(a, sep) + Split(b, sep)
    decreases |a|
  {
    if |a| == 0 {
      assert a + [sep] + b == [sep] + b;
      assert ([sep] + b)[1..] == b;
    } else {
      assert (a + [sep] + b)[0] == a[0];
      assert (a + [sep] + b)[1..] == a[1..] + [sep] + b;
      SplitConcat(a[1..], b, sep);
    }
  }

  /** `sep.join(parts)` ends with its last part. */
  lemma {:induction false} JoinLast(parts: seq<string>, sep: string)
    requires |parts| >= 2
    ensures Join(parts, sep) == Join(parts[..|parts| - 1], sep) + sep + parts[|parts| - 1]
    decreases |parts|
  {
    if |parts| > 2 {
      JoinLast(parts[1..], sep);
      assert parts[1..][..|parts| - 2] == parts[..|parts| - 1][1..];
    }
  }

  /** A stripped line without outer white space is left as it is. */
  lemma StripOfStripped(s: string)
    requires |s| > 0 ==> !IsSpace(s[0]) && !IsSpace(s[|s| - 1])
    ensures Strip(s) == s
  {
  }

  /** Joined nine fields start with the first field's first character and end with the last field's last one. */
  lemma JoinEnds(v: seq<string>)
    requires |v| == 9 && |v[0]| > 0 && |v[8]| > 0
    ensures var s := Join(v, " "); |s| > 0 && s[0] == v[0][0] && s[|s| - 1] == v[8][|v[8]| - 1]
  {
    JoinLast(v, " ");
  }

  /** The fields of a stripped line with nine fields: the first and last are not empty. */
  lemma OuterFieldsNotEmpty(s: string)
    requires Strip(s) == s && |Split(s, ' ')| == 9
    ensures var v := Split(s, ' ');
      && |v[0]| > 0 && |v[8]| > 0 && s[0] == v[0][0] && s[|s| - 1] == v[8][|v[8]| - 1]
  {
    var v := Split(s, ' ');
    JoinSplit(s, ' ');
    JoinLast(v, " ");
    assert Join(v, " ") == Join(v[..8], " ") + " " + v[8];
    JoinEnds(v);
  }

  /**
   * Converting a converted line gives back the original line, stripped: the
   * conversion is its own inverse on the lines it accepts.
   */
  lemma ConvertLineTwice(line: string)
    requires ConvertLine(line).Ok?
    ensures ConvertLine(ConvertLine(line).value) == Ok(Strip(line))
  {
    var s := Strip(line);
    var v := Split(s, ' ');
    var out := Join(Reorder(v), " ");
    StripStripped(line);
    OuterFieldsNotEmpty(s);
    JoinEnds(Reorder(v));
    StripOfStripped(out);
    FieldsHaveNoSpace(s);
    assert NoSep(Reorder(v), ' ');
    SplitJoin(Reorder(v), ' ');
    ReorderInvolution(v);
    JoinSplit(s, ' ');
  }

  /** Stripping twice strips no more than once. */
  lemma {:induction false} StripStripped(s: string)
    ensures Strip(Strip(s)) == Strip(s)
    decreases |s|
  {
    if |s| > 0 && IsSpace(s[0]) {
      StripStripped(s[1..]);
    } else if |s| > 0 && IsSpace(s[|s| - 1]) {
      StripStripped(s[..|s| - 1]);
    }
  }

  /** No field of a split line holds the separator. */
  lemma {:induction false} FieldsHaveNoSpace(s: string)
    ensures NoSep(Split(s, ' '), ' ')
    decreases |s|
  {
    if |s| > 0 {
      FieldsHaveNoSpace(s[1..]);
    }
  }

  // ----- The `Network` constructor -----

  /** Who reads a file: skrf for Touchstone files, the driver for a P13 table (a `.dat` table has a header row). */
  datatype Reader = Touchstone | Table(dropHeader: bool)

  /** `file.split('.')[-1].lower()` */
  function Extension(file: string): string
  {
    var parts := Split(file, '.');
    Lower(parts[|parts| - 1])
  }

  predicate IsDigit(c: char)
  {
    '0' <= c <= '9'
  }

  /** Python's `int(s)` succeeds on ASCII text: outer white space, a sign, digits with single underscores between them. */
  predicate IsPythonInt(s: string)
  {
    var t := Strip(s);
    var d := if |t| > 0 && (t[0] == '+' || t[0] == '-') then t[1..] else t;
    && |d| > 0 && IsDigit(d[0]) && IsDigit(d[|d| - 1])
    && (forall i :: 0 <= i < |d| ==> IsDigit(d[i]) || d[i] == '_')
    && (forall i :: 0 <= i < |d| - 1 ==> d[i] == '_' ==> d[i + 1] != '_')
  }

  /**
   * Who reads the file: an empty extension raises; `s<int>p` is handed to
   * skrf; everything else is read as a table. The constructor's `.ntwk` and
   * `.p` test compares with dotted text, which an extension never holds.
   */
  function Classify(file: string): (r: Result<Reader>)
    ensures r.Err? <==> Extension(file) == ""
    ensures r == Ok(Table(true)) <==> Extension(file) == "dat"
  {
    var ext := Extension(file);
    if |ext| == 0 then Err("IndexError: string index out of range")
    else if |ext| >= 2 && ext[0] == 's' && ext[|ext| - 1] == 'p' && IsPythonInt(ext[1..|ext| - 1]) then Ok(Touchstone)
    else if ext in [".ntwk", ".p"] then Ok(Touchstone)
    else if ext == "dat" then Ok(Table(true))
    else Ok(Table(false))
  }

  /** The extension of a file name is the lower-cased text after its last dot. */
  lemma ExtensionAfterLastDot(stem: string, e: string)
    requires '.' !in e
    ensures Extension(stem + "." + e) == Lower(e)
  {
    SplitConcat(stem, e, '.');
    SplitOfField(e, '.');
  }

  /** The extension never holds a dot, so the pickle test never matches. */
  lemma {:induction false} ExtensionHasNoDot(file: string)
    ensures '.' !in Extension(file)
  {
    FieldsHaveNoDot(file);
  }

  lemma {:induction false} FieldsHaveNoDot(s: string)
    ensures NoSep(Split(s, '.'), '.')
    decreases |s|
  {
    if |s| > 0 {
      FieldsHaveNoDot(s[1..]);
    }
  }

  /** `name.s2p`, `name.S4P` and the like go to skrf. */
  lemma TouchstoneByExtension(stem: string, d: char)
    requires IsDigit(d)
    ensures Classify(stem + ".s" + [d] + "p") == Ok(Touchstone)
    ensures Classify(stem + ".S" + [d] + "P") == Ok(Touchstone)
  {
    assert stem + ".s" + [d] + "p" == stem + "." + ("s" + [d] + "p");
    ExtensionAfterLastDot(stem, "s" + [d] + "p");
    assert stem + ".S" + [d] + "P" == stem + "." + ("S" + [d] + "P");
    ExtensionAfterLastDot(stem, "S" + [d] + "P");
    assert Strip([d]) == [d];
  }

  /** Pickles (`.ntwk`, `.p`) are read as P13 tables; `.dat` tables lose their first row. */
  lemma TablesByExtension(stem: string)
    ensures Classify(stem + ".ntwk") == Ok(Table(false))
    ensures Classify(stem + ".p") == Ok(Table(false))
    ensures Classify(stem + ".dat") == Ok(Table(true))
    ensures Classify(stem + ".DAT") == Ok(Table(true))
  {
    assert stem + ".ntwk" == stem + "." + "ntwk";
    ExtensionAfterLastDot(stem, "ntwk");
    assert stem + ".p" == stem + "." + "p";
    ExtensionAfterLastDot(stem, "p");
    assert stem + ".dat" == stem + "." + "dat";
    ExtensionAfterLastDot(stem, "dat");
    assert stem + ".DAT" == stem + "." + "DAT";
    ExtensionAfterLastDot(stem, "DAT");
    assert Lower("DAT") == "dat";
  }

  /** The constructor as its pickle test intends: `.ntwk` and `.p` files go to skrf as well. */
  function ClassifyIntended(file: string): (r: Result<Reader>)
    ensures r.Err? <==> Extension(file) == ""
    ensures r == Ok(Table(true)) <==> Extension(file) == "dat"
    ensures Extension(file) in ["ntwk", "p"] ==> r == Ok(Touchstone)
  {
    var ext := Extension(file);
    if ext in ["ntwk", "p"] then Ok(Touchstone) else Classify(file)
  }

  /** As intended, pickles go to skrf where the code reads them as tables; every other file is read as before. */
  lemma IntendedPicklesToSkrf(stem: string, file: string)
    ensures ClassifyIntended(stem + ".ntwk") == Ok(Touchstone) && Classify(stem + ".ntwk") == Ok(Table(false))
    ensures ClassifyIntended(stem + ".p") == Ok(Touchstone) && Classify(stem + ".p") == Ok(Table(false))
    ensures Extension(file) !in ["ntwk", "p"] ==> ClassifyIntended(file) == Classify(file)
  {
    TablesByExtension(stem);
    assert stem + ".ntwk" == stem + "." + "ntwk";
    ExtensionAfterLastDot(stem, "ntwk");
    assert Lower("ntwk") == "ntwk";
    assert stem + ".p" == stem + "." + "p";
    ExtensionAfterLastDot(stem, "p");
    assert Lower("p") == "p";
  }

  /** A complex number as its real and imaginary parts. */
  datatype Complex = Complex(re: real, im: real)

  /** One frequency's 2x2 scattering matrix. */
  datatype SMatrix = SMatrix(s11: Complex, s12: Complex, s21: Complex, s22: Complex)

  /** All rows of a table have the same width, as in the array `genfromtxt` returns. */
  predicate Rectangular(rows: seq<seq<real>>)
  {
    forall i :: 0 <= i < |rows| ==> |rows[i]| == |rows[0]|
  }

  /** The number of columns of a table (the length of its transpose). */
  function Width(rows: seq<seq<real>>): nat
  {
    if |rows| == 0 then 0 else |rows[0]|
  }

  /** The S matrix of one P13 row: S11 = c1 + j c2, S12 = c3 + j c4, S21 = c5 + j c6, S22 = c7 + j c8. */
  function RowMatrix(row: seq<real>): SMatrix
    requires |row| == 9
  {
    SMatrix(Complex(row[1], row[2]), Complex(row[3], row[4]), Complex(row[5], row[6]), Complex(row[7], row[8]))
  }

  /** The rows the driver keeps: a `.dat` table loses its header row. */
  function Kept(rows: seq<seq<real>>, dropHeader: bool): (r: seq<seq<real>>)
    ensures dropHeader && |rows| > 0 ==> r == rows[1..]
    ensures !dropHeader || |rows| == 0 ==> r == rows
  {
    if dropHeader && |rows| > 0 then rows[1..] else rows
  }

  /** A network as the constructor leaves it. */
  class Network {
    var params: map<string, real>
    var reader: Option<Reader>
    var f: seq<real>
    var s: seq<SMatrix>
    const z0: real

    constructor (z0: real)
      ensures this.z0 == z0 && params == map[] && reader == None && f == [] && s == []
    {
      this.z0 := z0;
      params := map[];
      reader := None;
      f := [];
      s := [];
    }

    /** Fills the frequencies and the S matrices from a nine-column table, row by row. */
    method Fill(rows: seq<seq<real>>)
      requires forall i :: 0 <= i < |rows| ==> |rows[i]| == 9
      modifies this
      ensures params == old(params) && reader == old(reader)
      ensures |f| == |rows| && |s| == |rows|
      ensures forall k :: 0 <= k < |rows| ==> f[k] == rows[k][0] && s[k] == RowMatrix(rows[k])
    {
      f := [];
      s := [];
      for k := 0 to |rows|
        invariant params == old(params) && reader == old(reader)
        invariant |f| == k && |s| == k
        invariant forall j :: 0 <= j < k ==> f[j] == rows[j][0] && s[j] == RowMatrix(rows[j])
      {
        f := f + [rows[k][0]];
        s := s + [RowMatrix(rows[k])];
      }
    }
  }

  /**
   * `Network(file, params, z0)`: `parsed` is what `params_from_filename` finds
   * in the file name and `table` what `genfromtxt` returns for a table file.
   * Without a file, skrf builds an empty network from `z0`.
   */
  method Open(file: Option<string>, params: Option<map<string, real>>, z0: real,
              parsed: map<string, real>, table: seq<seq<real>>) returns (r: Result<Network>)
    requires Rectangular(table)
    ensures var named := file.Some? && file.value != "";
      && (r.Err? <==> named && (Classify(file.value).Err?
                                || (Classify(file.value).value.Table? && Width(Kept(table, Classify(file.value).value.dropHeader)) != 9)))
      && (r.Err? && named && Classify(file.value).Ok? ==> r.error == TABLE_ERROR)
    ensures r.Ok? ==> fresh(r.value) && r.value.z0 == z0
    ensures r.Ok? ==> r.value.params == (if file.Some? && file.value != "" then parsed else map[])
                                        + (if params.Some? then params.value else map[])
    ensures r.Ok? ==> r.value.reader == (if file.Some? && file.value != "" then Some(Classify(file.value).value) else None)
    ensures r.Ok? && r.value.reader.Some? && r.value.reader.value.Table? ==>
      var rows := Kept(table, r.value.reader.value.dropHeader);
      && |r.value.s| == |rows| && |r.value.f| == |rows|
      && forall k :: 0 <= k < |rows| ==> r.value.f[k] == rows[k][0] && r.value.s[k] == RowMatrix(rows[k])
  {
    var n := new Network(z0);
    if file.Some? && file.value != "" {
      n.params := parsed;
      var reader := Classify(file.value);
      if reader.Err? {
        return Err(reader.error);
      }
      n.reader := Some(reader.value);
      if reader.value.Table? {
        var rows := Kept(table, reader.value.dropHeader);
        if Width(rows) != 9 {
          return Err(TABLE_ERROR);
        }
        n.Fill(rows);
      }
    }
    if params.Some? {
      n.params := n.params + params.value;
    }
    r := Ok(n);
  }

  /** A parameter given to the constructor overrides the one parsed from the file name; the others are kept. */
  lemma ExplicitParamsWin(parsed: map<string, real>, params: map<string, real>, key: string)
    ensures key in params ==> (parsed + params)[key] == params[key]
    ensures key !in params && key in parsed ==> (parsed + params)[key] == parsed[key]
    ensures key in parsed + params <==> key in parsed || key in params
  {
  }
}
