/**
 The row loop of `main`: rows without a monitor id are skipped; every
 other row adds its output directory to the list of generated project
 directories, in input order, and writes a monitor document and a
 project descriptor there. The writes are recorded as a sequence of
 `Generated` values instead of being performed.
 */
module Generator {
  import opened Wrappers
  import opened MonitorConfig
  import opened ProjectDescriptor

  const OutputProjectBaseDir := "projects/synthetic-monitor"

  /** Python's `os.path.join(a, b)` on POSIX: an absolute `b` replaces
      `a`; otherwise a `/` is put between them unless `a` is empty or
      already ends with one. */
  function PathJoin(a: string, b: string): (r: string)
    ensures |b| <= |r| && r[|r| - |b|..] == b
    ensures b != [] && b[0] == '/' ==> r == b
    ensures (b == [] || b[0] != '/') ==> |a| <= |r| && r[..|a|] == a
  {
    if b != [] && b[0] == '/' then b
    else if a == [] || a[|a| - 1] == '/' then a + b
    else a + "/" + b
  }

  /** What one kept row leaves behind: its directory, the monitor document
      and the descriptor text written there. */
  datatype Generated = Generated(dir: string, monitor: MonitorDoc, projectYaml: string)

  /** `if not monitor_id: continue` skips a row whose id is absent or empty. */
  predicate HasMonitorId(row: Row) {
    Truthy(row, "monitor_id")
  }

  /** What a row leaves behind. Only rows with a monitor id are written,
      and for them the id is the cell `row["monitor_id"]`. */
  function RowOutput(row: Row, base: string): Generated {
    var id := Get(row, "monitor_id", "");
    Generated(PathJoin(base, id), MonitorFor(row),
              CreateProjectYamlContent(id, Get(row, "monitor_name", DefaultName)))
  }

  /** The outputs `out` gives for the rows that have a monitor id, in row order. */
  function KeptOutputs(out: Row -> Generated, rows: seq<Row>): seq<Generated> {
    if rows == [] then []
    else
      var last := rows[|rows| - 1];
      KeptOutputs(out, rows[..|rows| - 1]) + (if HasMonitorId(last) then [out(last)] else [])
  }

  function Emit(base: string): Row -> Generated {
    row => RowOutput(row, base)
  }

  /** The outputs of a whole run, in row order. */
  function Generate(rows: seq<Row>, base: string): seq<Generated> {
    KeptOutputs(Emit(base), rows)
  }

  /** The directory list the run reports. */
  function Dirs(outputs: seq<Generated>): seq<string> {
    if outputs == [] then [] else Dirs(outputs[..|outputs| - 1]) + [outputs[|outputs| - 1].dir]
  }

  /** One more row extends the run by that row's output, if it has one. */
  lemma GenerateStep(rows: seq<Row>, i: nat, base: string)
    requires i < |rows|
    ensures Generate(rows[..i + 1], base)
         == Generate(rows[..i], base) + (if HasMonitorId(rows[i]) then [RowOutput(rows[i], base)] else [])
  {
    assert rows[..i + 1][..i] == rows[..i];
  }

  /** The loop of `main` (lines 148-161 and the two writes after them). */
  method GenerateProjects(rows: seq<Row>, base: string) returns (generatedProjectDirs: seq<string>, written: seq<Generated>)
    ensures written == Generate(rows, base)
    ensures generatedProjectDirs == Dirs(written)
  {
    generatedProjectDirs := [];
    written := [];
    var i := 0;
    while i < |rows|
      invariant 0 <= i <= |rows|
      invariant written == Generate(rows[..i], base)
      invariant generatedProjectDirs == Dirs(written)
    {
      var row := rows[i];
      GenerateStep(rows, i, base);
      var monitorName := Get(row, "monitor_name", DefaultName);
      if "monitor_id" !in row || row["monitor_id"] == "" {
        i := i + 1;
        continue;
      }
      var monitorId := row["monitor_id"];
      var currentMonitorDir := PathJoin(base, monitorId);
      generatedProjectDirs := generatedProjectDirs + [currentMonitorDir];
      var monitorJsonData, _ := CreateMonitorJsonContent(row);
      var projectYamlData := CreateProjectYamlContent(monitorId, monitorName);
      var output := Generated(currentMonitorDir, monitorJsonData, projectYamlData);
      assert output == RowOutput(row, base);
      written := written + [output];
      i := i + 1;
    }
    assert rows[..i] == rows;
  }

  lemma {:induction false} KeptOutputsAppend(out: Row -> Generated, a: seq<Row>, b: seq<Row>)
    ensures KeptOutputs(out, a + b) == KeptOutputs(out, a) + KeptOutputs(out, b)
    decreases |b|
  {
    if b != [] {
      var b' := b[..|b| - 1];
      assert (a + b)[..|a + b| - 1] == a + b';
      KeptOutputsAppend(out, a, b');
    } else {
      assert a + b == a;
    }
  }

  lemma {:induction false} KeptOutputsSound(out: Row -> Generated, rows: seq<Row>)
    ensures |KeptOutputs(out, rows)| <= |rows|
    ensures forall g :: g in KeptOutputs(out, rows) ==>
      exists i :: 0 <= i < |rows| && HasMonitorId(rows[i]) && g == out(rows[i])
  {
    if rows != [] {
      var init := rows[..|rows| - 1];
      KeptOutputsSound(out, init);
      forall g | g in KeptOutputs(out, rows)
        ensures exists i :: 0 <= i < |rows| && HasMonitorId(rows[i]) && g == out(rows[i])
      {
        if g in KeptOutputs(out, init) {
          var i :| 0 <= i < |init| && HasMonitorId(init[i]) && g == out(init[i]);
          assert rows[i] == init[i];
        } else {
          assert g == out(rows[|rows| - 1]);
        }
      }
    }
  }

  lemma {:induction false} KeptOutputsComplete(out: Row -> Generated, rows: seq<Row>)
    ensures forall i :: 0 <= i < |rows| && HasMonitorId(rows[i]) ==> out(rows[i]) in KeptOutputs(out, rows)
  {
    if rows != [] {
      var init := rows[..|rows| - 1];
      KeptOutputsComplete(out, init);
      forall i | 0 <= i < |rows| && HasMonitorId(rows[i])
        ensures out(rows[i]) in KeptOutputs(out, rows)
      {
        if i < |init| {
          assert rows[i] == init[i];
        }
      }
    }
  }

  /** A run over two batches of rows is the first run followed by the second. */
  lemma GenerateAppend(a: seq<Row>, b: seq<Row>, base: string)
    ensures Generate(a + b, base) == Generate(a, base) + Generate(b, base)
  {
    KeptOutputsAppend(Emit(base), a, b);
  }

  /** A row without a monitor id adds nothing; any other row adds exactly
      its own output at its own place, even when its id was seen before. */
  lemma RowContribution(a: seq<Row>, row: Row, b: seq<Row>, base: string)
    ensures !HasMonitorId(row) ==> Generate(a + [row] + b, base) == Generate(a + b, base)
    ensures HasMonitorId(row) ==>
      Generate(a + [row] + b, base) == Generate(a, base) + [RowOutput(row, base)] + Generate(b, base)
  {
    GenerateAppend(a + [row], b, base);
    GenerateAppend(a, [row], base);
    GenerateAppend(a, b, base);
    assert Generate([row], base) == Generate([], base) + (if HasMonitorId(row) then [RowOutput(row, base)] else []);
  }

  /** Every output comes from a row that has a monitor id. */
  lemma GenerateSound(rows: seq<Row>, base: string)
    ensures |Generate(rows, base)| <= |rows|
    ensures forall g :: g in Generate(rows, base) ==>
      exists i :: 0 <= i < |rows| && HasMonitorId(rows[i]) && g == RowOutput(rows[i], base)
  {
    KeptOutputsSound(Emit(base), rows);
  }

  /** Every row that has a monitor id has its output in the run. */
  lemma GenerateComplete(rows: seq<Row>, base: string)
    ensures forall i :: 0 <= i < |rows| && HasMonitorId(rows[i]) ==> RowOutput(rows[i], base) in Generate(rows, base)
  {
    KeptOutputsComplete(Emit(base), rows);
  }

  /** The reported directories are the output directories, one per kept row. */
  lemma {:induction false} DirsOfOutputs(outputs: seq<Generated>)
    ensures |Dirs(outputs)| == |outputs|
    ensures forall k :: 0 <= k < |outputs| ==> Dirs(outputs)[k] == outputs[k].dir
  {
    if outputs != [] {
      DirsOfOutputs(outputs[..|outputs| - 1]);
    }
  }

  /** What is written for a kept row: the directory `base/monitor_id`
      (the id itself when it is an absolute path), a document with one
      navigate step to the row's url, and the descriptor with the row's
      id and name. */
  lemma RowOutputShape(row: Row, base: string)
    requires HasMonitorId(row)
    ensures var g := RowOutput(row, base);
      && (base != [] && base[|base| - 1] != '/' && row["monitor_id"][0] != '/' ==>
            g.dir == base + "/" + row["monitor_id"])
      && (row["monitor_id"][0] == '/' ==> g.dir == row["monitor_id"])
      && g.monitor.script.events ==
           [ScriptEvent(Description(row), "navigate", Get(row, "target_url", DefaultUrl), "page_complete")]
      && g.projectYaml == CreateProjectYamlContent(row["monitor_id"], g.monitor.name)
  {
  }

  /** A row with id "mon-1", name "Home Page Check" and target
      "https://example.com", and no other column. */
  const ExampleRow: Row := map["monitor_id" := "mon-1", "monitor_name" := "Home Page Check",
                               "target_url" := "https://example.com"]

  /** The example row's document is enabled and runs every 60 minutes. */
  lemma ExampleRowSchedule()
    ensures MonitorFor(ExampleRow).enabled
    ensures MonitorFor(ExampleRow).frequencyMin == 60
  {
    assert "enabled" !in ExampleRow && "frequencyMin" !in ExampleRow;
    EnabledIff(ExampleRow);
  }

  /** The example row's document runs at the default location, carries the
      row's name and points at the row's url. */
  lemma ExampleRowSettings()
    ensures var d := MonitorFor(ExampleRow);
      && d.locations == ["GEOLOCATION-7F39AED31559436D"]
      && d.name == "Home Page Check"
      && d.script.events[0].url == "https://example.com"
  {
    assert "locations" !in ExampleRow && "location_id" !in ExampleRow;
  }

  /** The example row fills in no tag column, so its only tag is the sentinel. */
  lemma ExampleRowTags()
    ensures MonitorFor(ExampleRow).tags == [Tag("CONTEXTLESS", "MonacoCsvGenerated", None)]
  {
    assert ExampleRow.Keys == {"monitor_id", "monitor_name", "target_url"};
    SentinelWhenNoTagColumns(ExampleRow);
  }

  /** A run over one row with a monitor id writes exactly that row's output. */
  lemma SingleRowRun(row: Row, base: string)
    requires HasMonitorId(row)
    ensures Generate([row], base) == [RowOutput(row, base)]
  {
    KeptOutputsSingle(Emit(base), row);
  }

  lemma KeptOutputsSingle(out: Row -> Generated, row: Row)
    requires HasMonitorId(row)
    ensures KeptOutputs(out, [row]) == [out(row)]
  {
    assert [row][..0] == [];
  }

  /** The run over the example row alone writes one directory,
      projects/synthetic-monitor/mon-1, holding that document and the
      descriptor for "mon-1" and "Home Page Check". */
  lemma EndToEnd()
    ensures var out := Generate([ExampleRow], OutputProjectBaseDir);
      && |out| == 1
      && out[0].dir == "projects/synthetic-monitor/mon-1"
      && out[0].monitor == MonitorFor(ExampleRow)
      && out[0].projectYaml == CreateProjectYamlContent("mon-1", "Home Page Check")
  {
    assert PathJoin(OutputProjectBaseDir, "mon-1") == "projects/synthetic-monitor/mon-1";
    assert HasMonitorId(ExampleRow);
    SingleRowRun(ExampleRow, OutputProjectBaseDir);
  }
}
