/**
 * The aggregator ("barrel") file that `actionResolvers` generates for a module:
 * one import per resolver file, a blank line, and an exported array literal that
 * lists the imported bindings in the same order.
 *
 * The two filename helpers of the generator (the identifier helper `getFileWODots`
 * and the import-path helper `getFileWOTS`) are not part of this model. The members
 * that need them take them as the parameters `ident` and `path`: arbitrary, but pure
 * and total functions, so both calls of `ident` on one file give the same identifier.
 */
module ActionResolvers {

  datatype Option<T> = None | Some(value: T)

  // Fixed text of the generated file.
  const ImportHead := "import { resolvers as "
  const FromResolvers := " } from '../resolvers/"
  const ImportTail := "';"
  const Separator := ""
  const ExportOpen := "export const resolvers = ["
  const ExportClose := "];"
  const Indent := "  "

  /** The import line emitted for one resolver file. */
  function ImportLine(id: string, modulePath: string): string
  {
    ImportHead + id + FromResolvers + modulePath + ImportTail
  }

  /** The array-element line emitted for one resolver file. */
  function ElementLine(id: string): string
  {
    Indent + id + ","
  }

  /** Reads an array-element line back: the identifier it lists, if it is one. */
  function ElementIdent(line: string): (r: Option<string>)
    ensures r.Some? <==> |line| >= 3 && line[..2] == Indent && line[|line| - 1] == ','
    ensures r.Some? ==> ElementLine(r.value) == line
  {
    if |line| >= 3 && line[..2] == Indent && line[|line| - 1] == ',' then
      var id := line[2..|line| - 1];
      assert line == line[..2] + id + [line[|line| - 1]];
      Some(id)
    else
      None
  }

  predicate IsImportLine(line: string)
  {
    "import " <= line
  }

  predicate IsElementLine(line: string)
  {
    ElementIdent(line).Some?
  }

  /** Number of lines that satisfy `p`. */
  function CountLines(lines: seq<string>, p: string -> bool): nat
  {
    if lines == [] then 0
    else (if p(lines[0]) then 1 else 0) + CountLines(lines[1..], p)
  }

  /** The import lines, one per resolver file, in listing order (first loop of the generator). */
  function Imports(files: seq<string>, ident: string -> string, path: string -> string): (lines: seq<string>)
    ensures |lines| == |files|
  {
    if files == [] then []
    else [ImportLine(ident(files[0]), path(files[0]))] + Imports(files[1..], ident, path)
  }

  /** The array-element lines, one per resolver file, in listing order (second loop of the generator). */
  function Elements(files: seq<string>, ident: string -> string): (lines: seq<string>)
    ensures |lines| == |files|
  {
    if files == [] then []
    else [ElementLine(ident(files[0]))] + Elements(files[1..], ident)
  }

  /** The whole generated file, as the list of lines handed to the writer. */
  function Aggregator(files: seq<string>, ident: string -> string, path: string -> string): (lines: seq<string>)
    ensures |lines| == 2 * |files| + 3
  {
    Imports(files, ident, path) + [Separator, ExportOpen] + Elements(files, ident) + [ExportClose]
  }

  /**
   * The line assembly of `actionResolvers`: `dataResolvers` is filled by two loops over
   * the listing and three fixed pushes; the listing's length is returned.
   */
  method BuildResolvers(files: seq<string>, ident: string -> string, path: string -> string)
    returns (dataResolvers: seq<string>, count: nat)
    ensures dataResolvers == Aggregator(files, ident, path)
    ensures count == |files|
    ensures count == CountLines(dataResolvers, IsImportLine) == CountLines(dataResolvers, IsElementLine)
  {
    dataResolvers := [];
    for i := 0 to |files|
      invariant dataResolvers == Imports(files[..i], ident, path)
    {
      var resolver := files[i];
      ImportsStep(files, ident, path, i);
      dataResolvers := dataResolvers + [ImportLine(ident(resolver), path(resolver))];
    }
    assert files[..|files|] == files;
    ghost var imports := dataResolvers;
    assert imports == Imports(files, ident, path);
    dataResolvers := dataResolvers + [Separator];
    dataResolvers := dataResolvers + [ExportOpen];
    ghost var head := dataResolvers;
    for i := 0 to |files|
      invariant dataResolvers == head + Elements(files[..i], ident)
    {
      var resolver := files[i];
      ElementsStep(files, ident, i);
      dataResolvers := dataResolvers + [ElementLine(ident(resolver))];
    }
    assert dataResolvers == head + Elements(files, ident);
    dataResolvers := dataResolvers + [ExportClose];
    assert dataResolvers == Aggregator(files, ident, path);
    LineCounts(files, ident, path);
    count := |files|;
  }

  // ---------------------------------------------------------------------------
  // Order: the output for a concatenated listing is the concatenated output, so
  // entries are neither reordered, merged nor dropped.
  // ---------------------------------------------------------------------------

  lemma {:induction false} ImportsAppend(a: seq<string>, b: seq<string>, ident: string -> string, path: string -> string)
    ensures Imports(a + b, ident, path) == Imports(a, ident, path) + Imports(b, ident, path)
  {
    if a == [] {
      assert a + b == b;
    } else {
      assert (a + b)[1..] == a[1..] + b;
      ImportsAppend(a[1..], b, ident, path);
    }
  }

  lemma {:induction false} ElementsAppend(a: seq<string>, b: seq<string>, ident: string -> string)
    ensures Elements(a + b, ident) == Elements(a, ident) + Elements(b, ident)
  {
    if a == [] {
      assert a + b == b;
    } else {
      assert (a + b)[1..] == a[1..] + b;
      ElementsAppend(a[1..], b, ident);
    }
  }

  /** One pass of the first loop: the imports of a listing prefix grow by the next file's import. */
  lemma ImportsStep(files: seq<string>, ident: string -> string, path: string -> string, i: nat)
    requires i < |files|
    ensures Imports(files[..i + 1], ident, path) == Imports(files[..i], ident, path) + [ImportLine(ident(files[i]), path(files[i]))]
  {
    assert files[..i + 1] == files[..i] + [files[i]];
    ImportsAppend(files[..i], [files[i]], ident, path);
  }

  /** One pass of the second loop: the elements of a listing prefix grow by the next file's element. */
  lemma ElementsStep(files: seq<string>, ident: string -> string, i: nat)
    requires i < |files|
    ensures Elements(files[..i + 1], ident) == Elements(files[..i], ident) + [ElementLine(ident(files[i]))]
  {
    assert files[..i + 1] == files[..i] + [files[i]];
    ElementsAppend(files[..i], [files[i]], ident);
  }

  lemma {:induction false} ImportsAt(files: seq<string>, ident: string -> string, path: string -> string, i: nat)
    requires i < |files|
    ensures Imports(files, ident, path)[i] == ImportLine(ident(files[i]), path(files[i]))
  {
    if i > 0 {
      ImportsAt(files[1..], ident, path, i - 1);
    }
  }

  lemma {:induction false} ElementsAt(files: seq<string>, ident: string -> string, i: nat)
    requires i < |files|
    ensures Elements(files, ident)[i] == ElementLine(ident(files[i]))
  {
    if i > 0 {
      ElementsAt(files[1..], ident, i - 1);
    }
  }

  // ---------------------------------------------------------------------------
  // Layout of the generated file.
  // ---------------------------------------------------------------------------

  /** Where every line of the generated file sits, for a listing of n files. */
  lemma AggregatorLayout(files: seq<string>, ident: string -> string, path: string -> string)
    ensures var lines, n := Aggregator(files, ident, path), |files|;
      |lines| == 2 * n + 3 &&
      lines[n] == "" &&
      lines[n + 1] == "export const resolvers = [" &&
      lines[2 * n + 2] == "];" &&
      (forall i :: 0 <= i < n ==>
         lines[i] == "import { resolvers as " + ident(files[i]) + " } from '../resolvers/" + path(files[i]) + "';") &&
      (forall i :: 0 <= i < n ==> lines[n + 2 + i] == "  " + ident(files[i]) + ",")
  {
    var lines, n := Aggregator(files, ident, path), |files|;
    forall i | 0 <= i < n
      ensures lines[i] == ImportLine(ident(files[i]), path(files[i]))
      ensures lines[n + 2 + i] == ElementLine(ident(files[i]))
    {
      ImportsAt(files, ident, path, i);
      ElementsAt(files, ident, i);
    }
  }

  /** With an empty resolvers folder the file exports an empty array. */
  lemma EmptyListing(ident: string -> string, path: string -> string)
    ensures Aggregator([], ident, path) == ["", "export const resolvers = [", "];"]
  {
  }

  /**
   * No renaming drift: array element i lists exactly the identifier that import i binds,
   * and that identifier is the one derived from the i-th file.
   */
  lemma NoRenamingDrift(files: seq<string>, ident: string -> string, path: string -> string, i: nat)
    requires i < |files|
    ensures var lines, n := Aggregator(files, ident, path), |files|;
      ElementIdent(lines[n + 2 + i]) == Some(ident(files[i])) &&
      ImportHead + ElementIdent(lines[n + 2 + i]).value + FromResolvers <= lines[i]
  {
    var lines, n := Aggregator(files, ident, path), |files|;
    AggregatorLayout(files, ident, path);
    var id := ident(files[i]);
    ElementLineRoundTrip(id);
    assert lines[i] == (ImportHead + id + FromResolvers) + (path(files[i]) + ImportTail);
  }

  lemma ElementLineRoundTrip(id: string)
    ensures ElementIdent(ElementLine(id)) == Some(id)
  {
    var line := ElementLine(id);
    assert line[..2] == Indent;
    assert line[2..|line| - 1] == id;
  }

  /**
   * Two equal listing entries produce two equal imports and two equal elements. The
   * equalities follow from the entries being equal; that both copies are present, at
   * distinct positions i and j, comes from the positions AggregatorLayout gives.
   */
  lemma DuplicatesKept(files: seq<string>, ident: string -> string, path: string -> string, i: nat, j: nat)
    requires i < j < |files| && files[i] == files[j]
    ensures var lines, n := Aggregator(files, ident, path), |files|;
      lines[i] == lines[j] && IsImportLine(lines[j]) &&
      lines[n + 2 + i] == lines[n + 2 + j] && IsElementLine(lines[n + 2 + j])
  {
    var n := |files|;
    AggregatorLayout(files, ident, path);
    ImportLineKind(ident(files[j]), path(files[j]));
    ElementLineKind(ident(files[j]));
  }

  // ---------------------------------------------------------------------------
  // Counts: as many import lines as array elements as resolver files.
  // ---------------------------------------------------------------------------

  lemma ImportLineKind(id: string, modulePath: string)
    ensures IsImportLine(ImportLine(id, modulePath)) && !IsElementLine(ImportLine(id, modulePath))
  {
    var line := ImportLine(id, modulePath);
    assert line == ImportHead + (id + FromResolvers + modulePath + ImportTail);
    assert line[..7] == "import ";
    assert line[|line| - 1] == ';';
  }

  lemma ElementLineKind(id: string)
    ensures IsElementLine(ElementLine(id)) && !IsImportLine(ElementLine(id))
  {
    ElementLineRoundTrip(id);
    assert ElementLine(id)[0] == ' ';
  }

  lemma {:induction false} CountAppend(a: seq<string>, b: seq<string>, p: string -> bool)
    ensures CountLines(a + b, p) == CountLines(a, p) + CountLines(b, p)
  {
    if a == [] {
      assert a + b == b;
    } else {
      assert (a + b)[1..] == a[1..] + b;
      CountAppend(a[1..], b, p);
    }
  }

  lemma {:induction false} ImportsCounts(files: seq<string>, ident: string -> string, path: string -> string)
    ensures CountLines(Imports(files, ident, path), IsImportLine) == |files|
    ensures CountLines(Imports(files, ident, path), IsElementLine) == 0
  {
    if files != [] {
      ImportLineKind(ident(files[0]), path(files[0]));
      ImportsCounts(files[1..], ident, path);
    }
  }

  lemma {:induction false} ElementsCounts(files: seq<string>, ident: string -> string)
    ensures CountLines(Elements(files, ident), IsElementLine) == |files|
    ensures CountLines(Elements(files, ident), IsImportLine) == 0
  {
    if files != [] {
      ElementLineKind(ident(files[0]));
      ElementsCounts(files[1..], ident);
    }
  }

  /** The generated file holds exactly n import lines and exactly n array-element lines. */
  lemma LineCounts(files: seq<string>, ident: string -> string, path: string -> string)
    ensures CountLines(Aggregator(files, ident, path), IsImportLine) == |files|
    ensures CountLines(Aggregator(files, ident, path), IsElementLine) == |files|
  {
    var imports, elements := Imports(files, ident, path), Elements(files, ident);
    var fixed := [Separator, ExportOpen];
    ImportsCounts(files, ident, path);
    ElementsCounts(files, ident);
    CountAppend(imports, fixed, IsImportLine);
    CountAppend(imports, fixed, IsElementLine);
    CountAppend(imports + fixed, elements, IsImportLine);
    CountAppend(imports + fixed, elements, IsElementLine);
    CountAppend(imports + fixed + elements, [ExportClose], IsImportLine);
    CountAppend(imports + fixed + elements, [ExportClose], IsElementLine);
    assert CountLines(fixed, IsImportLine) == 0 && CountLines(fixed, IsElementLine) == 0 by {
      assert ExportOpen[0] != "import "[0] && ExportOpen[|ExportOpen| - 1] != ',';
      assert !IsImportLine(ExportOpen) && !IsElementLine(ExportOpen);
      assert !IsImportLine(Separator) && !IsElementLine(Separator);
      assert fixed[1..] == [ExportOpen] && fixed[1..][1..] == [];
      assert CountLines(fixed[1..], IsImportLine) == 0 && CountLines(fixed[1..], IsElementLine) == 0;
    }
    assert !IsImportLine(ExportClose) && !IsElementLine(ExportClose);
  }
}
