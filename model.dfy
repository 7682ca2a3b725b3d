/** Launching the MPAS model and preparing its domain decomposition
    (compass/model.py): the launch command line, the optional partitioning
    call, and the METIS graph file written from a mesh's cell adjacency. */
module Model {
  import opened Outcomes
  import opened Text

  // ---------------------------------------------------------------------
  // run_model and partition

  /** What `run_model` does, in order: rewrite the PIO options of a
      namelist, run a command, or set an environment variable. */
  datatype Action =
    | UpdateNamelistPio(namelist: string)
    | RunCommand(args: seq<string>)
    | SetEnv(variable: string, value: string)

  /** The partitioning command, run only when there is more than one core. */
  function Partition(cores: int, executable: string, graphFile: string): (cmd: Option<seq<string>>)
    ensures cmd.Some? <==> cores > 1
    ensures cmd.Some? ==> |cmd.value| == 3 && cmd.value[0] == executable && cmd.value[1] == graphFile
  {
    if cores > 1 then Some([executable, graphFile, IntToDecimal(cores)]) else None
  }

  /** The partitioner is asked for as many parts as there are cores. */
  lemma PartitionCount(cores: int, executable: string, graphFile: string)
    requires cores > 1
    ensures ParseInt(Partition(cores, executable, graphFile).value[2]) == Some(cores)
  {
    ParseIntDecimal(cores);
  }

  /** The model's command line: the words of the parallel launcher (which
      may carry its own flags) followed by the core count, the model
      executable in the working directory, the namelist and the streams file. */
  function LaunchArgs(parallelExecutable: string, cores: int, model: string, namelist: string, streams: string)
    : (args: seq<string>)
    ensures |args| >= 8 && |args[|args| - 5]| >= 2
    ensures args[|args| - 5][..2] == "./" && '/' !in args[|args| - 5][2..]
    ensures args[|args| - 3] == namelist && args[|args| - 1] == streams
  {
    var words := SplitOn(parallelExecutable, ' ');
    var exe := "./" + Basename(model);
    InWorkDir(Basename(model));
    SevenAfter(words, "-n", IntToDecimal(cores), exe, "-n", namelist, "-s", streams);
    words + ["-n", IntToDecimal(cores), exe, "-n", namelist, "-s", streams]
  }

  lemma InWorkDir(name: string)
    requires '/' !in name
    ensures |"./" + name| >= 2 && ("./" + name)[..2] == "./" && '/' !in ("./" + name)[2..]
  {
    assert ("./" + name)[2..] == name;
  }

  /** The launcher words come first and rejoin to the configured launcher;
      then `-n` and the core count, which reads back; the executable, the
      model's file name run from the working directory; and the namelist
      and streams files behind their flags. */
  lemma LaunchArgsMeaning(parallelExecutable: string, cores: int, model: string, namelist: string, streams: string)
    ensures var args := LaunchArgs(parallelExecutable, cores, model, namelist, streams);
      var n := |SplitOn(parallelExecutable, ' ')|;
      |args| == n + 7 && JoinWith(args[..n], ' ') == parallelExecutable
      && args[n] == "-n" && ParseInt(args[n + 1]) == Some(cores)
      && args[n + 2] == "./" + Basename(model)
      && args[n + 3] == "-n" && args[n + 4] == namelist && args[n + 5] == "-s" && args[n + 6] == streams
  {
    var words := SplitOn(parallelExecutable, ' ');
    SevenAfter(words, "-n", IntToDecimal(cores), "./" + Basename(model), "-n", namelist, "-s", streams);
    JoinSplit(parallelExecutable, ' ');
    ParseIntDecimal(cores);
  }

  lemma SevenAfter(words: seq<string>, a: string, b: string, c: string, d: string, e: string, f: string, g: string)
    ensures var s := words + [a, b, c, d, e, f, g]; var n := |words|;
      |s| == n + 7 && s[..n] == words && s[n] == a && s[n + 1] == b && s[n + 2] == c
      && s[n + 3] == d && s[n + 4] == e && s[n + 5] == f && s[n + 6] == g
  {
  }

  /** What `run_model` does before it launches the model: the PIO
      update of the namelist when asked for, then the partitioning when
      asked for and there is more than one core. */
  function Preparation(updatePio: bool, partitionGraph: bool, cores: int, namelist: string,
                       partitionExecutable: string, graphFile: string): (prep: seq<Action>)
    ensures |prep| == (if updatePio then 1 else 0) + (if partitionGraph && cores > 1 then 1 else 0)
    ensures updatePio ==> prep[0] == UpdateNamelistPio(namelist)
    ensures partitionGraph && cores > 1 ==>
      prep[|prep| - 1] == RunCommand([partitionExecutable, graphFile, IntToDecimal(cores)])
  {
    (if updatePio then [UpdateNamelistPio(namelist)] else [])
    + (if partitionGraph && cores > 1 then [RunCommand(Partition(cores, partitionExecutable, graphFile).value)] else [])
  }

  /** `run_model`: picks the namelist and streams files (by default named
      after the MPAS core), optionally updates the PIO options and
      partitions the mesh, sets the OpenMP thread count and launches the
      model. The configuration lookups are parameters. */
  method RunModel(mpasCore: string, cores: int, threads: int, parallelExecutable: string,
                  partitionExecutable: string, model: string, updatePio: bool := true,
                  partitionGraph: bool := true, graphFile: string := "graph.info",
                  namelist: Option<string> := None, streams: Option<string> := None)
    returns (actions: seq<Action>)
    ensures var nl := namelist.GetOr("namelist." + mpasCore);
      var st := streams.GetOr("streams." + mpasCore);
      actions == Preparation(updatePio, partitionGraph, cores, nl, partitionExecutable, graphFile)
        + [SetEnv("OMP_NUM_THREADS", IntToDecimal(threads)), RunCommand(LaunchArgs(parallelExecutable, cores, model, nl, st))]
  {
    var nl := namelist.GetOr("namelist." + mpasCore);
    var st := streams.GetOr("streams." + mpasCore);
    var pio: seq<Action> := [];
    if updatePio {
      pio := [UpdateNamelistPio(nl)];
    }
    var partition: seq<Action> := [];
    if partitionGraph {
      var cmd := Partition(cores, partitionExecutable, graphFile);
      if cmd.Some? {
        partition := [RunCommand(cmd.value)];
      }
    }
    var launch := [SetEnv("OMP_NUM_THREADS", IntToDecimal(threads)),
                   RunCommand(LaunchArgs(parallelExecutable, cores, model, nl, st))];
    assert pio + partition == Preparation(updatePio, partitionGraph, cores, nl, partitionExecutable, graphFile);
    actions := pio + partition + launch;
  }

  // ---------------------------------------------------------------------
  // make_graph_file

  /** The part of an MPAS mesh file the graph is made from: per cell, the
      number of edges and the row of neighbours as stored (1-based, 0 for
      "no neighbour"), and the mesh's per-cell variables by name. */
  datatype Mesh = Mesh(nEdgesOnCell: seq<int>, cellsOnCell: seq<seq<int>>, variables: map<string, seq<real>>)

  /** The shape NetCDF guarantees: one row and one edge count per cell, a
      row wide enough for its edge count, and per-cell variables. */
  predicate WellFormed(m: Mesh) {
    |m.cellsOnCell| == |m.nEdgesOnCell|
    && (forall i :: 0 <= i < |m.nEdgesOnCell| ==> m.nEdgesOnCell[i] <= |m.cellsOnCell[i]|)
    && (forall v :: v in m.variables ==> |m.variables[v]| == |m.nEdgesOnCell|)
  }

  /** How many entries of cell `i`'s row `range(nEdgesOnCell[i])` visits. */
  function Width(m: Mesh, i: nat): (w: nat)
    requires WellFormed(m) && i < |m.nEdgesOnCell|
    ensures w <= |m.cellsOnCell[i]|
  {
    if m.nEdgesOnCell[i] < 0 then 0 else m.nEdgesOnCell[i]
  }

  datatype GraphError =
    | WeightFieldNotFound(field: string, meshFilename: string)
    | MissingVariable(name: string)

  /** The weight check as written: it raises exactly when the field IS in
      the mesh, and otherwise the lookup of the absent field fails. */
  function WeightsAsWritten(m: Mesh, meshFilename: string, weightField: Option<string>)
    : (r: Result<Option<seq<real>>, GraphError>)
    ensures weightField.None? ==> r == Ok(None)
    ensures weightField.Some? ==> r.Err?
    ensures r.Err? && r.error.WeightFieldNotFound? ==> r.error.field in m.variables
  {
    match weightField
    case None => Ok(None)
    case Some(f) =>
      if f in m.variables then Err(WeightFieldNotFound(f, meshFilename))
      else Err(MissingVariable(f))
  }

  /** The weight check as intended: raise when the field is missing,
      otherwise read it. */
  function Weights(m: Mesh, meshFilename: string, weightField: Option<string>): (r: Result<Option<seq<real>>, GraphError>)
    ensures weightField.None? ==> r == Ok(None)
    ensures weightField.Some? && weightField.value in m.variables ==> r == Ok(Some(m.variables[weightField.value]))
    ensures weightField.Some? && weightField.value !in m.variables
      ==> r == Err(WeightFieldNotFound(weightField.value, meshFilename))
  {
    match weightField
    case None => Ok(None)
    case Some(f) =>
      if f !in m.variables then Err(WeightFieldNotFound(f, meshFilename))
      else Ok(Some(m.variables[f]))
  }

  /** As written, no weight field can ever be used: naming one always
      fails, and the field that is present is exactly the one refused. */
  lemma WeightGuardInverted(m: Mesh, meshFilename: string, f: string)
    ensures WeightsAsWritten(m, meshFilename, Some(f)).Err?
    ensures f in m.variables ==>
      WeightsAsWritten(m, meshFilename, Some(f)) == Err(WeightFieldNotFound(f, meshFilename))
      && Weights(m, meshFilename, Some(f)).Ok?
  {
  }

  /** `int(x)` for a float: rounds toward zero. */
  function Trunc(x: real): (t: int)
    ensures x >= 0.0 ==> 0 <= t && t as real <= x < t as real + 1.0
    ensures x < 0.0 ==> t <= 0 && t as real - 1.0 < x <= t as real
  {
    if x >= 0.0 then x.Floor else -((-x).Floor)
  }

  /** The entries of a row, among its first `k`, that count as edges: the
      0-based neighbour is not -1. */
  function RowEnds(row: seq<int>, k: nat): (n: nat)
    requires k <= |row|
    ensures n <= k
  {
    if k == 0 then 0 else RowEnds(row, k - 1) + (if row[k - 1] - 1 != -1 then 1 else 0)
  }

  /** The edge ends of the first `n` cells. */
  function EdgeEnds(m: Mesh, n: nat): nat
    requires WellFormed(m) && n <= |m.nEdgesOnCell|
  {
    if n == 0 then 0 else EdgeEnds(m, n - 1) + RowEnds(m.cellsOnCell[n - 1], Width(m, n - 1))
  }

  /** The 1-based neighbour ids written for a row's first `k` entries:
      those whose 0-based neighbour is not negative. */
  function RowIds(row: seq<int>, k: nat): (ids: seq<int>)
    requires k <= |row|
    ensures |ids| <= k
    ensures forall x :: x in ids ==> x >= 1 && x in row[..k]
  {
    if k == 0 then []
    else
      var before := RowIds(row, k - 1);
      assert row[..k - 1] <= row[..k];
      if row[k - 1] - 1 >= 0 then before + [row[k - 1] - 1 + 1] else before
  }

  /** Every written id is the neighbour stored in the row, once per entry:
      where no entry is negative, the edge count and the written ids agree. */
  lemma {:induction false} RowEndsAreIds(row: seq<int>, k: nat)
    requires k <= |row|
    requires forall j :: 0 <= j < k ==> row[j] >= 0
    ensures RowEnds(row, k) == |RowIds(row, k)|
  {
    if k > 0 {
      RowEndsAreIds(row, k - 1);
    }
  }

  /** The ids written for the first `n` cells, all together. */
  function ListedIds(m: Mesh, n: nat): nat
    requires WellFormed(m) && n <= |m.nEdgesOnCell|
  {
    if n == 0 then 0 else ListedIds(m, n - 1) + |RowIds(m.cellsOnCell[n - 1], Width(m, n - 1))|
  }

  /** The header's edge count is half the number of neighbour ids listed in
      the file when no stored neighbour is negative. */
  lemma {:induction false} EdgeEndsAreListed(m: Mesh, n: nat)
    requires WellFormed(m) && n <= |m.nEdgesOnCell|
    requires forall i, j :: 0 <= i < n && 0 <= j < Width(m, i) ==> m.cellsOnCell[i][j] >= 0
    ensures EdgeEnds(m, n) == ListedIds(m, n)
  {
    if n > 0 {
      EdgeEndsAreListed(m, n - 1);
      RowEndsAreIds(m.cellsOnCell[n - 1], Width(m, n - 1));
    }
  }

  function Decimals(ids: seq<int>): (ds: seq<string>)
    ensures |ds| == |ids| && forall k :: 0 <= k < |ids| ==> ds[k] == IntToDecimal(ids[k])
  {
    seq(|ids|, k requires 0 <= k < |ids| => IntToDecimal(ids[k]))
  }

  /** Tokens each followed by one space, as `graph.write('{} '.format(x))`
      leaves them. */
  function Spaced(ts: seq<string>): string {
    if ts == [] then "" else ts[0] + " " + Spaced(ts[1..])
  }

  lemma {:induction false} SpacedSnoc(ts: seq<string>, t: string)
    ensures Spaced(ts + [t]) == Spaced(ts) + t + " "
  {
    if ts != [] {
      assert (ts + [t])[1..] == ts[1..] + [t];
      SpacedSnoc(ts[1..], t);
    }
  }

  /** Lines each ended by a newline. */
  function Unlines(ls: seq<string>): string {
    if ls == [] then "" else ls[0] + "\n" + Unlines(ls[1..])
  }

  lemma {:induction false} UnlinesSnoc(ls: seq<string>, l: string)
    ensures Unlines(ls + [l]) == Unlines(ls) + l + "\n"
  {
    if ls != [] {
      assert (ls + [l])[1..] == ls[1..] + [l];
      UnlinesSnoc(ls[1..], l);
    }
  }

  /** The header line: vertex count, edge count and, with weights, the
      format code `010` (vertex weights only). The edge count is written as
      an integer, as the METIS graph format requires. */
  function Header(nCells: nat, ends: nat, weighted: bool): (h: string)
    ensures forall k :: 0 <= k < |h| ==> IsDigit(h[k]) || h[k] == ' '
  {
    var parts := [NatToDecimal(nCells), NatToDecimal(ends / 2)] + (if weighted then ["010"] else []);
    assert AllDigits("010");
    assert forall k :: 0 <= k < |parts| ==> AllDigits(parts[k]);
    JoinDigits(parts, ' ');
    JoinWith(parts, ' ')
  }

  /** `str(x / 2)` for a count `x`: true division gives a float, printed
      with a fractional part. */
  function HalfAsFloat(ends: nat): string {
    NatToDecimal(ends / 2) + (if ends % 2 == 0 then ".0" else ".5")
  }

  /** The header line as written, with the float edge count. */
  function HeaderAsWritten(nCells: nat, ends: nat, weighted: bool): (h: string)
    ensures '.' in h
  {
    var a, f := NatToDecimal(nCells), HalfAsFloat(ends);
    var dot := |NatToDecimal(ends / 2)|;
    assert f[dot] == '.';
    var parts := [a, f] + (if weighted then ["010"] else []);
    var tail := if weighted then f + [' '] + "010" else f;
    assert parts[1..] == [f] + (if weighted then ["010"] else []);
    assert weighted ==> JoinWith(parts[1..], ' ') == f + [' '] + JoinWith(["010"], ' ');
    assert JoinWith(parts[1..], ' ') == tail;
    assert JoinWith(parts, ' ') == a + [' '] + tail;
    assert tail[dot] == '.';
    assert (a + [' '] + tail)[|a| + 1 + dot] == '.';
    JoinWith(parts, ' ')
  }

  /** The line of cell `i`: its truncated weight when weights are given,
      then the 1-based ids of its neighbours. */
  function CellLine(m: Mesh, w: Option<seq<real>>, i: nat): string
    requires WellFormed(m) && i < |m.nEdgesOnCell|
    requires w.Some? ==> |w.value| == |m.nEdgesOnCell|
  {
    (if w.Some? then IntToDecimal(Trunc(w.value[i])) + " " else "")
      + Spaced(Decimals(RowIds(m.cellsOnCell[i], Width(m, i))))
  }

  function CellLines(m: Mesh, w: Option<seq<real>>, n: nat): (ls: seq<string>)
    requires WellFormed(m) && n <= |m.nEdgesOnCell|
    requires w.Some? ==> |w.value| == |m.nEdgesOnCell|
    ensures |ls| == n && forall i :: 0 <= i < n ==> ls[i] == CellLine(m, w, i)
  {
    seq(n, i requires 0 <= i < n => CellLine(m, w, i))
  }

  /** The lines of the graph file: the header, then one line per cell. */
  function GraphLines(m: Mesh, w: Option<seq<real>>): seq<string>
    requires WellFormed(m)
    requires w.Some? ==> |w.value| == |m.nEdgesOnCell|
  {
    var n := |m.nEdgesOnCell|;
    [Header(n, EdgeEnds(m, n), w.Some?)] + CellLines(m, w, n)
  }

  function GraphText(m: Mesh, w: Option<seq<real>>): string
    requires WellFormed(m)
    requires w.Some? ==> |w.value| == |m.nEdgesOnCell|
  {
    Unlines(GraphLines(m, w))
  }

  /** The first loop of `make_graph_file`: counts the edge ends. */
  method CountEdgeEnds(m: Mesh) returns (nEdges: nat)
    requires WellFormed(m)
    ensures nEdges == EdgeEnds(m, |m.nEdgesOnCell|)
  {
    nEdges := 0;
    var i := 0;
    while i < |m.nEdgesOnCell|
      invariant 0 <= i <= |m.nEdgesOnCell|
      invariant nEdges == EdgeEnds(m, i)
    {
      var j := 0;
      while j < m.nEdgesOnCell[i]
        invariant 0 <= j <= Width(m, i)
        invariant nEdges == EdgeEnds(m, i) + RowEnds(m.cellsOnCell[i], j)
      {
        if m.cellsOnCell[i][j] - 1 != -1 {
          nEdges := nEdges + 1;
        }
        j := j + 1;
      }
      i := i + 1;
    }
  }

  /** The neighbour ids of one cell, appended to the file. */
  method WriteRow(row: seq<int>, nEdges: int, text: string) returns (text': string)
    requires nEdges <= |row|
    ensures text' == text + Spaced(Decimals(RowIds(row, if nEdges < 0 then 0 else nEdges)))
  {
    var written := "";
    var j := 0;
    while j < nEdges
      invariant 0 <= j && (nEdges >= 0 ==> j <= nEdges) && (nEdges < 0 ==> j == 0)
      invariant written == Spaced(Decimals(RowIds(row, j)))
    {
      RowStep(row, j);
      if row[j] - 1 >= 0 {
        written := written + IntToDecimal(row[j] - 1 + 1) + " ";
      }
      j := j + 1;
    }
    text' := text + written;
  }

  /** One more entry of the row adds its id and a space to the text when
      it is a neighbour, and nothing otherwise. */
  lemma RowStep(row: seq<int>, j: nat)
    requires j < |row|
    ensures row[j] - 1 >= 0 ==>
      Spaced(Decimals(RowIds(row, j + 1))) == Spaced(Decimals(RowIds(row, j))) + IntToDecimal(row[j] - 1 + 1) + " "
    ensures row[j] - 1 < 0 ==> RowIds(row, j + 1) == RowIds(row, j)
  {
    var ids := RowIds(row, j);
    if row[j] - 1 >= 0 {
      assert RowIds(row, j + 1) == ids + [row[j] - 1 + 1];
      assert Decimals(ids + [row[j] - 1 + 1]) == Decimals(ids) + [IntToDecimal(row[j] - 1 + 1)];
      SpacedSnoc(Decimals(ids), IntToDecimal(row[j] - 1 + 1));
    }
  }

  /** One cell's line, appended to the file. */
  method WriteCellLine(m: Mesh, weights: Option<seq<real>>, i: nat, text: string) returns (text': string)
    requires WellFormed(m) && i < |m.nEdgesOnCell|
    requires weights.Some? ==> |weights.value| == |m.nEdgesOnCell|
    ensures text' == text + CellLine(m, weights, i) + "\n"
  {
    var prefix := if weights.Some? then IntToDecimal(Trunc(weights.value[i])) + " " else "";
    text' := text + prefix;
    text' := WriteRow(m.cellsOnCell[i], m.nEdgesOnCell[i], text');
    text' := text' + "\n";
  }

  /** The second loop of `make_graph_file`: the header, then each cell's line. */
  method WriteGraph(m: Mesh, weights: Option<seq<real>>, nEdges: nat) returns (text: string)
    requires WellFormed(m)
    requires weights.Some? ==> |weights.value| == |m.nEdgesOnCell|
    requires nEdges == EdgeEnds(m, |m.nEdgesOnCell|)
    ensures text == GraphText(m, weights)
  {
    var nCells := |m.nEdgesOnCell|;
    var header := Header(nCells, nEdges, weights.Some?);
    text := header + "\n";
    assert Unlines([header] + CellLines(m, weights, 0)) == text by {
      assert [header] + CellLines(m, weights, 0) == [header];
    }
    var i := 0;
    while i < nCells
      invariant 0 <= i <= nCells
      invariant text == Unlines([header] + CellLines(m, weights, i))
    {
      text := WriteCellLine(m, weights, i, text);
      NextCellLine(m, weights, i, [header]);
      i := i + 1;
    }
  }

  lemma NextCellLine(m: Mesh, w: Option<seq<real>>, i: nat, front: seq<string>)
    requires WellFormed(m) && i < |m.nEdgesOnCell|
    requires w.Some? ==> |w.value| == |m.nEdgesOnCell|
    ensures Unlines(front + CellLines(m, w, i + 1)) == Unlines(front + CellLines(m, w, i)) + CellLine(m, w, i) + "\n"
  {
    CellLinesSnoc(m, w, i);
    AppendSnoc(front, CellLines(m, w, i), CellLine(m, w, i));
    UnlinesSnoc(front + CellLines(m, w, i), CellLine(m, w, i));
  }

  lemma CellLinesSnoc(m: Mesh, w: Option<seq<real>>, i: nat)
    requires WellFormed(m) && i < |m.nEdgesOnCell|
    requires w.Some? ==> |w.value| == |m.nEdgesOnCell|
    ensures CellLines(m, w, i + 1) == CellLines(m, w, i) + [CellLine(m, w, i)]
  {
    var longer, shorter, line := CellLines(m, w, i + 1), CellLines(m, w, i), CellLine(m, w, i);
    assert |longer| == |shorter + [line]|;
    forall k | 0 <= k <= i
      ensures longer[k] == (shorter + [line])[k]
    {
      if k < i {
        assert (shorter + [line])[k] == shorter[k];
      }
    }
  }

  lemma AppendSnoc<T>(a: seq<T>, b: seq<T>, c: T)
    ensures a + (b + [c]) == (a + b) + [c]
  {
  }

  /** `make_graph_file` with the weight check as intended: the graph file's
      text, or the error that stops it before anything is written. */
  method MakeGraphFile(m: Mesh, meshFilename: string, weightField: Option<string> := None)
    returns (r: Result<string, GraphError>)
    requires WellFormed(m)
    ensures match Weights(m, meshFilename, weightField)
      case Err(e) => r == Err(e)
      case Ok(w) => r == Ok(GraphText(m, w))
  {
    var weights: Option<seq<real>> := None;
    if weightField.Some? {
      if weightField.value !in m.variables {
        return Err(WeightFieldNotFound(weightField.value, meshFilename));
      }
      weights := Some(m.variables[weightField.value]);
    }
    var nEdges := CountEdgeEnds(m);
    var text := WriteGraph(m, weights, nEdges);
    r := Ok(text);
  }

  // ---------------------------------------------------------------------
  // What the graph file says

  lemma DecimalHasNoBreak(i: int)
    ensures |IntToDecimal(i)| > 0 && NoSpace(IntToDecimal(i)) && '\n' !in IntToDecimal(i)
  {
    var s := NatToDecimal(if i < 0 then -i else i);
    assert forall k :: 0 <= k < |s| ==> IsDigit(s[k]);
    if i < 0 {
      assert IntToDecimal(i) == "-" + s;
      assert forall k :: 0 <= k < |"-" + s| ==> ("-" + s)[k] == '-' || IsDigit(("-" + s)[k]);
    }
  }

  lemma {:induction false} SpacedHasNoBreak(ts: seq<string>)
    requires forall k :: 0 <= k < |ts| ==> '\n' !in ts[k]
    ensures '\n' !in Spaced(ts)
  {
    if ts != [] {
      SpacedHasNoBreak(ts[1..]);
    }
  }

  /** Splitting `Unlines` at newlines gives the lines back, plus the empty
      piece after the last newline. */
  lemma {:induction false} SplitUnlines(ls: seq<string>)
    requires forall k :: 0 <= k < |ls| ==> '\n' !in ls[k]
    ensures SplitOn(Unlines(ls), '\n') == ls + [""]
  {
    if ls == [] {
      assert SplitOn("", '\n') == [""];
    } else {
      SplitUnlines(ls[1..]);
      SplitOnPiece(ls[0], Unlines(ls[1..]), '\n');
      assert ls[0] + "\n" + Unlines(ls[1..]) == ls[0] + ['\n'] + Unlines(ls[1..]);
      assert [ls[0]] + (ls[1..] + [""]) == ls + [""];
    }
  }

  /** The words of a line of space-terminated tokens are the tokens. */
  lemma {:induction false} WordsOfSpaced(ts: seq<string>)
    requires forall k :: 0 <= k < |ts| ==> |ts[k]| > 0 && NoSpace(ts[k])
    ensures Words(Spaced(ts)) == ts
  {
    if ts != [] {
      assert forall k :: 0 <= k < |ts[1..]| ==> ts[1..][k] == ts[k + 1];
      WordsOfSpaced(ts[1..]);
      WordsOfSpacedStep(ts);
    }
  }

  lemma WordsOfSpacedStep(ts: seq<string>)
    requires |ts| > 0 && |ts[0]| > 0 && NoSpace(ts[0])
    requires Words(Spaced(ts[1..])) == ts[1..]
    ensures Words(Spaced(ts)) == ts
  {
    WordsCons(ts[0], Spaced(ts[1..]));
    HeadTail(ts);
  }

  /** The header reads as the vertex count, the integer edge count and,
      with weights, the format code. */
  lemma HeaderFields(nCells: nat, ends: nat, weighted: bool)
    ensures Words(Header(nCells, ends, weighted))
      == [NatToDecimal(nCells), NatToDecimal(ends / 2)] + (if weighted then ["010"] else [])
    ensures ParseNat(Words(Header(nCells, ends, weighted))[1]) == Some(ends / 2)
  {
    var ws := [NatToDecimal(nCells), NatToDecimal(ends / 2)] + (if weighted then ["010"] else []);
    var a := NatToDecimal(nCells);
    var b := NatToDecimal(ends / 2);
    assert forall k :: 0 <= k < |a| ==> IsDigit(a[k]);
    assert forall k :: 0 <= k < |b| ==> IsDigit(b[k]);
    assert NoSpace("010");
    WordsJoin(ws);
    ParseNatDecimal(ends / 2);
  }

  /** As written, the edge count in the header is not an integer: it always
      carries a decimal point, so it does not read as a count, while the
      corrected header's count reads back as half the edge ends. */
  lemma HeaderAsWrittenNotInteger(ends: nat)
    ensures '.' in HalfAsFloat(ends) && ParseNat(HalfAsFloat(ends)).None?
    ensures ParseNat(NatToDecimal(ends / 2)) == Some(ends / 2)
  {
    var f := HalfAsFloat(ends);
    var b := NatToDecimal(ends / 2);
    assert f[|b|] == '.';
    assert !IsDigit(f[|b|]);
    ParseNatDecimal(ends / 2);
  }

  /** Concretely: two cells that neighbour each other. The header written
      is `2 1.0`, where the graph format wants `2 1`. */
  lemma HeaderAsWrittenExample()
    ensures HeaderAsWritten(2, 2, false) == "2 1.0"
    ensures Header(2, 2, false) == "2 1"
  {
    assert NatToDecimal(2) == "2";
    assert NatToDecimal(1) == "1";
    assert HalfAsFloat(2) == "1.0";
    assert [NatToDecimal(2), HalfAsFloat(2)] + [] == ["2", "1.0"];
    assert [NatToDecimal(2), NatToDecimal(1)] + [] == ["2", "1"];
    assert JoinWith(["2", "1.0"], ' ') == "2" + [' '] + JoinWith(["1.0"], ' ');
    assert JoinWith(["2", "1"], ' ') == "2" + [' '] + JoinWith(["1"], ' ');
  }

  /** The graph file has one line per cell after the header. */
  lemma GraphFileLines(m: Mesh, w: Option<seq<real>>)
    requires WellFormed(m)
    requires w.Some? ==> |w.value| == |m.nEdgesOnCell|
    ensures |GraphLines(m, w)| == |m.nEdgesOnCell| + 1
    ensures SplitOn(GraphText(m, w), '\n') == GraphLines(m, w) + [""]
    ensures forall i :: 0 <= i < |m.nEdgesOnCell| ==> GraphLines(m, w)[i + 1] == CellLine(m, w, i)
  {
    var ls := GraphLines(m, w);
    forall k | 0 <= k < |ls|
      ensures '\n' !in ls[k]
    {
      if k == 0 {
        var n := |m.nEdgesOnCell|;
        HeaderHasNoBreak(n, EdgeEnds(m, n), w.Some?);
      } else {
        CellLineHasNoBreak(m, w, k - 1);
      }
    }
    SplitUnlines(ls);
  }

  lemma HeaderHasNoBreak(nCells: nat, ends: nat, weighted: bool)
    ensures '\n' !in Header(nCells, ends, weighted)
  {
    var ws := [NatToDecimal(nCells), NatToDecimal(ends / 2)] + (if weighted then ["010"] else []);
    DecimalHasNoBreak(nCells);
    DecimalHasNoBreak(ends / 2);
    JoinHasNoBreak(ws);
  }

  lemma {:induction false} JoinHasNoBreak(ws: seq<string>)
    requires forall k :: 0 <= k < |ws| ==> '\n' !in ws[k]
    ensures '\n' !in JoinWith(ws, ' ')
  {
    if |ws| > 1 {
      JoinHasNoBreak(ws[1..]);
    }
  }

  lemma CellLineHasNoBreak(m: Mesh, w: Option<seq<real>>, i: nat)
    requires WellFormed(m) && i < |m.nEdgesOnCell|
    requires w.Some? ==> |w.value| == |m.nEdgesOnCell|
    ensures '\n' !in CellLine(m, w, i)
  {
    var ds := Decimals(RowIds(m.cellsOnCell[i], Width(m, i)));
    forall k | 0 <= k < |ds|
      ensures '\n' !in ds[k]
    {
      DecimalHasNoBreak(RowIds(m.cellsOnCell[i], Width(m, i))[k]);
    }
    SpacedHasNoBreak(ds);
    if w.Some? {
      DecimalHasNoBreak(Trunc(w.value[i]));
    }
  }

  /** Each cell's line holds its truncated weight, when weights are given,
      and then the 1-based ids of its neighbours, every one at least 1. */
  lemma CellLineWords(m: Mesh, w: Option<seq<real>>, i: nat)
    requires WellFormed(m) && i < |m.nEdgesOnCell|
    requires w.Some? ==> |w.value| == |m.nEdgesOnCell|
    ensures Words(CellLine(m, w, i))
      == (if w.Some? then [IntToDecimal(Trunc(w.value[i]))] else []) + Decimals(RowIds(m.cellsOnCell[i], Width(m, i)))
  {
    var ds := Decimals(RowIds(m.cellsOnCell[i], Width(m, i)));
    forall k | 0 <= k < |ds|
      ensures |ds[k]| > 0 && NoSpace(ds[k])
    {
      DecimalHasNoBreak(RowIds(m.cellsOnCell[i], Width(m, i))[k]);
    }
    if w.Some? {
      var t := IntToDecimal(Trunc(w.value[i]));
      DecimalHasNoBreak(Trunc(w.value[i]));
      WordsOfSpaced([t] + ds);
      assert ([t] + ds)[1..] == ds;
      assert Spaced([t] + ds) == t + " " + Spaced(ds);
    } else {
      WordsOfSpaced(ds);
    }
  }
}
