/** The document builder of ozinfo2yaml.py's `main`: one YAML document per sensor of
    the ozinfo table whose diag file is in the listing, naming the file, the kind of
    data read from it, and one descriptor per level to process.

    The documents are values; `yaml.dump` and the file writes are not modelled, and a
    run is the list of (output file, document) pairs in the order the script writes
    them, followed by the exception that ended it, if one did. */
module Documents {
  import opened Base
  import opened Text
  import opened NumPy
  import opened OzInfo
  import opened DiagFiles

  /** The command-line options `main` reads (`ozinfo` is replaced by the table's lines). */
  datatype Config = Config(diagdir: string, cycle: string, yaml: string, loop: string,
                           variable: string, monitor: bool)

  /** `{'layer': [level], 'bias correction': [True]}`. */
  datatype Descriptor = Descriptor(layer: seq<int>, biasCorrection: seq<bool>)

  /** `yamlout['diagnostic']`: the diag file, the data type and the `ozone` list. */
  datatype Document = Document(path: string, dataType: string, ozone: seq<Descriptor>)

  /** A document and the file it is dumped to. */
  datatype Written = Written(file: string, doc: Document)

  /** The files written, in order, and the exception that ended the run, if any. */
  datatype Run = Run(written: seq<Written>, failure: Option<Error>)

  // ---------------------------------------------------------------------------
  // Data type label
  // ---------------------------------------------------------------------------

  /** The data type written into every document (lines 48-53). */
  function DataTypeLabel(variable: string, loop: string): string {
    if variable == "obs" then "observation"
    else if variable == "hofx" then "hofx"
    else if loop == "anl" then "oma"
    else "omf"
  }

  /** `obs` reads observations and `hofx` reads H(x) whatever the loop; anything else
      reads departures, from the analysis (`oma`) when the loop is `anl` and from the
      guess (`omf`) otherwise. */
  lemma DataTypeLabelCases(variable: string, loop: string)
    ensures DataTypeLabel(variable, loop) in {"observation", "hofx", "oma", "omf"}
    ensures DataTypeLabel(variable, loop) == "observation" <==> variable == "obs"
    ensures DataTypeLabel(variable, loop) == "hofx" <==> variable == "hofx"
    ensures DataTypeLabel(variable, loop) == "oma" <==>
      variable != "obs" && variable != "hofx" && loop == "anl"
  {
  }

  // ---------------------------------------------------------------------------
  // Descriptors
  // ---------------------------------------------------------------------------

  /** An entry goes into its sensor's document when it is assimilated (use flag 1) or
      when monitored entries are asked for (line 77). */
  predicate Keep(iuse: int, monitor: bool) {
    iuse == 1 || monitor
  }

  /** The descriptor for one entry, with the layer read from the entry's level `ichan`
      (lines 77-82, as intended: the source reads an undefined `ilayer`). */
  function Entry(iuse: int, ichan: int, monitor: bool): Option<Descriptor> {
    if Keep(iuse, monitor) then Some(Descriptor([ichan], [true])) else None
  }

  /** Lines 77-82 as written: `int(ilayer)` names a variable that is never bound, so
      keeping an entry raises NameError. */
  function EntryAsWritten(iuse: int, ichan: int, monitor: bool): Result<Option<Descriptor>> {
    if Keep(iuse, monitor) then Err(NameError("ilayer")) else Ok(None)
  }

  /** As written, the script fails on exactly the entries the intended code keeps, and
      agrees with it on the entries it skips. */
  lemma AsWrittenFailsOnKeptEntries(iuse: int, ichan: int, monitor: bool)
    ensures EntryAsWritten(iuse, ichan, monitor).Err? <==> Entry(iuse, ichan, monitor).Some?
    ensures EntryAsWritten(iuse, ichan, monitor).Ok? ==>
      EntryAsWritten(iuse, ichan, monitor).value == Entry(iuse, ichan, monitor)
  {
  }

  /** An assimilated level-5 entry: the intended descriptor is `{layer: [5], bias
      correction: [true]}`, the code as written raises NameError. */
  lemma AsWrittenCounterexample()
    ensures EntryAsWritten(1, 5, false) == Err(NameError("ilayer"))
    ensures Entry(1, 5, false) == Some(Descriptor([5], [true]))
  {
  }

  function Optional<T>(o: Option<T>): seq<T> {
    if o.Some? then [o.value] else []
  }

  /** Every position of `idx` lies inside `layer` and `obuse`, so the fancy indexing
      of lines 74-75 does not raise IndexError. */
  predicate IndexesFit(t: Table, idx: seq<nat>) {
    forall k :: 0 <= k < |idx| ==> idx[k] < |t.layer| && idx[k] < |t.obuse|
  }

  /** The `ozone` list of lines 74-84: the entries at `idx`, in that order, zipped from
      `obuse` and `layer`, each turned into its descriptor if it is kept. */
  function Ozone(t: Table, idx: seq<nat>, monitor: bool): seq<Descriptor>
    requires IndexesFit(t, idx)
  {
    if idx == [] then []
    else
      var i := idx[|idx| - 1];
      Ozone(t, idx[..|idx| - 1], monitor) + Optional(Entry(t.obuse[i], t.layer[i], monitor))
  }

  /** The `ozone` list of lines 74-84 as written: the first kept entry raises
      NameError. */
  function OzoneAsWritten(t: Table, idx: seq<nat>, monitor: bool): Result<seq<Descriptor>>
    requires IndexesFit(t, idx)
  {
    if idx == [] then Ok([])
    else
      var i := idx[|idx| - 1];
      match OzoneAsWritten(t, idx[..|idx| - 1], monitor)
      case Err(e) => Err(e)
      case Ok(before) =>
        match EntryAsWritten(t.obuse[i], t.layer[i], monitor)
        case Err(e) => Err(e)
        case Ok(o) => Ok(before + Optional(o))
  }

  /** As written, a sensor's `ozone` list is built only when none of its entries is
      kept, and it is then empty; otherwise the script stops with NameError. */
  lemma {:induction false} OzoneAsWrittenFails(t: Table, idx: seq<nat>, monitor: bool)
    requires IndexesFit(t, idx)
    ensures OzoneAsWritten(t, idx, monitor).Ok? <==>
      forall k :: 0 <= k < |idx| ==> !Keep(t.obuse[idx[k]], monitor)
    ensures OzoneAsWritten(t, idx, monitor).Ok? ==>
      OzoneAsWritten(t, idx, monitor).value == Ozone(t, idx, monitor) == []
    ensures OzoneAsWritten(t, idx, monitor).Err? ==>
      OzoneAsWritten(t, idx, monitor).error == NameError("ilayer")
  {
    if idx != [] {
      var init, i := idx[..|idx| - 1], idx[|idx| - 1];
      assert IndexesFit(t, init);
      OzoneAsWrittenFails(t, init, monitor);
      assert forall k :: 0 <= k < |init| ==> init[k] == idx[k];
      if OzoneAsWritten(t, init, monitor).Ok? && !Keep(t.obuse[i], monitor) {
        assert OzoneAsWritten(t, init, monitor) == Ok([]);
        assert EntryAsWritten(t.obuse[i], t.layer[i], monitor) == Ok(None);
        assert Optional<Descriptor>(None) == [];
        assert OzoneAsWritten(t, idx, monitor) == Ok([] + []);
        assert Ozone(t, idx, monitor) == [];
      } else if OzoneAsWritten(t, init, monitor).Ok? {
        assert OzoneAsWritten(t, idx, monitor) == Err(NameError("ilayer"));
      } else {
        var k :| 0 <= k < |init| && Keep(t.obuse[init[k]], monitor);
        assert idx[k] == init[k];
      }
    }
  }

  /** A one-row table with an assimilated entry at level 5: the intended `ozone` list
      holds its descriptor, the code as written stops with NameError. */
  lemma OzoneAsWrittenCounterexample()
    ensures var t := Table(["sbuv2_n19"], [5], [1]);
      IndexesFit(t, [0])
      && OzoneAsWritten(t, [0], false) == Err(NameError("ilayer"))
      && Ozone(t, [0], false) == [Descriptor([5], [true])]
  {
    var t := Table(["sbuv2_n19"], [5], [1]);
    assert [0][..0] == [];
  }

  /** Every row of sensor `name` has a level and a use flag at its position. */
  predicate Fits(t: Table, name: string) {
    forall i :: 0 <= i < |t.sensor| && t.sensor[i] == name ==> i < |t.layer| && i < |t.obuse|
  }

  /** Reference: the levels of the first `n` rows of sensor `name` that are kept, in
      table order. */
  function KeptLevels(t: Table, name: string, monitor: bool, n: nat): seq<int>
    requires n <= |t.sensor| && Fits(t, name)
  {
    if n == 0 then []
    else
      var before := KeptLevels(t, name, monitor, n - 1);
      var i := n - 1;
      if t.sensor[i] == name && Keep(t.obuse[i], monitor) then before + [t.layer[i]] else before
  }

  /** A level is listed exactly when some row of the sensor among the first `n` has
      that level and is kept. */
  lemma {:induction false} KeptLevelsMembers(t: Table, name: string, monitor: bool, n: nat)
    requires n <= |t.sensor| && Fits(t, name)
    ensures forall l :: l in KeptLevels(t, name, monitor, n) <==>
      exists i :: 0 <= i < n && t.sensor[i] == name && Keep(t.obuse[i], monitor) && t.layer[i] == l
  {
    if n > 0 {
      KeptLevelsMembers(t, name, monitor, n - 1);
    }
  }

  /** With monitored entries included, a sensor's document has one level per row of
      that sensor. */
  lemma {:induction false} KeptLevelsMonitorAll(t: Table, name: string, n: nat)
    requires n <= |t.sensor| && Fits(t, name)
    ensures |KeptLevels(t, name, true, n)| == |Where(t.sensor[..n], name)|
  {
    if n > 0 {
      KeptLevelsMonitorAll(t, name, n - 1);
      assert t.sensor[..n][..n - 1] == t.sensor[..n - 1];
    }
  }

  /** The descriptors of a list of levels. */
  function Descriptors(levels: seq<int>): (r: seq<Descriptor>)
    ensures |r| == |levels|
    ensures forall k :: 0 <= k < |r| ==> r[k] == Descriptor([levels[k]], [true])
  {
    seq(|levels|, k requires 0 <= k < |levels| => Descriptor([levels[k]], [true]))
  }

  /** A sensor's rows fit exactly when the positions `np.where` finds for it do. */
  lemma FitsIffIndexesFit(t: Table, name: string)
    ensures Fits(t, name) <==> IndexesFit(t, Where(t.sensor, name))
  {
    var idx := Where(t.sensor, name);
    if IndexesFit(t, idx) {
      forall i | 0 <= i < |t.sensor| && t.sensor[i] == name
        ensures i < |t.layer| && i < |t.obuse|
      {
        var k :| 0 <= k < |idx| && idx[k] == i;
      }
    }
  }

  /** The `ozone` list the script builds from the positions `np.where` finds is the
      list of descriptors of the sensor's kept levels, in table order. */
  lemma {:induction false} OzoneIsKeptLevels(t: Table, name: string, monitor: bool, n: nat)
    requires n <= |t.sensor| && Fits(t, name)
    ensures IndexesFit(t, Where(t.sensor[..n], name))
    ensures Ozone(t, Where(t.sensor[..n], name), monitor)
         == Descriptors(KeptLevels(t, name, monitor, n))
  {
    WhereFits(t, name, n);
    if n > 0 {
      var i := n - 1;
      var idx, before := Where(t.sensor[..n], name), Where(t.sensor[..i], name);
      assert t.sensor[..n][..i] == t.sensor[..i];
      OzoneIsKeptLevels(t, name, monitor, i);
      var levels := KeptLevels(t, name, monitor, i);
      if t.sensor[i] == name {
        assert idx == before + [i];
        assert idx[..|idx| - 1] == before;
        var o := Entry(t.obuse[i], t.layer[i], monitor);
        assert Ozone(t, idx, monitor) == Ozone(t, before, monitor) + Optional(o);
        if Keep(t.obuse[i], monitor) {
          assert KeptLevels(t, name, monitor, n) == levels + [t.layer[i]];
          DescriptorsAppend(levels, t.layer[i]);
        } else {
          assert KeptLevels(t, name, monitor, n) == levels;
        }
      } else {
        assert idx == before;
        assert KeptLevels(t, name, monitor, n) == levels;
      }
    }
  }

  lemma WhereFits(t: Table, name: string, n: nat)
    requires n <= |t.sensor| && Fits(t, name)
    ensures IndexesFit(t, Where(t.sensor[..n], name))
  {
    var idx := Where(t.sensor[..n], name);
    forall k | 0 <= k < |idx|
      ensures idx[k] < |t.layer| && idx[k] < |t.obuse|
    {
      assert t.sensor[idx[k]] == t.sensor[..n][idx[k]];
    }
  }

  lemma DescriptorsAppend(levels: seq<int>, l: int)
    ensures Descriptors(levels + [l]) == Descriptors(levels) + [Descriptor([l], [true])]
  {
  }

  // ---------------------------------------------------------------------------
  // One sensor, and the whole run
  // ---------------------------------------------------------------------------

  /** What the loop body of lines 57-92 does for one sensor. */
  datatype Step = Skip | Emit(w: Written) | Fail(e: Error)

  function SensorStep(cfg: Config, t: Table, diagfiles: seq<string>, suffix: string,
                      diagtype: string, isensor: string): Step {
    var sensorindx := Where(t.sensor, isensor);
    var diagfile := ExpectedDiagFile(cfg.diagdir, isensor, cfg.loop, cfg.cycle, suffix);
    if diagfile !in diagfiles then Skip
    else if !IndexesFit(t, sensorindx) then Fail(LevelIndexError(isensor))
    else
      Emit(Written(OutputFile(cfg.yaml, diagfile),
                   Document(diagfile, diagtype, Ozone(t, sensorindx, cfg.monitor))))
  }

  /** The steps taken in order; an exception ends the run, and the files written
      before it stay written. */
  function Collect(steps: seq<Step>): Run {
    if steps == [] then Run([], None)
    else
      match steps[0]
      case Skip => Collect(steps[1..])
      case Fail(e) => Run([], Some(e))
      case Emit(w) =>
        var rest := Collect(steps[1..]);
        Run([w] + rest.written, rest.failure)
  }

  /** The step for each of the sensors `names`, in order. */
  function Steps(cfg: Config, t: Table, diagfiles: seq<string>, suffix: string,
                 diagtype: string, names: seq<string>): seq<Step> {
    seq(|names|, i requires 0 <= i < |names| => SensorStep(cfg, t, diagfiles, suffix, diagtype, names[i]))
  }

  /** `main(config)` with the ozinfo table given as its lines and the directory as the
      list glob returned. */
  function Script(cfg: Config, lines: seq<string>, diagfiles: seq<string>): Run {
    match OzinfoTable(lines)
    case Err(e) => Run([], Some(e))
    case Ok(t) =>
      match DeriveSuffix(diagfiles)
      case Err(e) => Run([], Some(e))
      case Ok(suffix) =>
        Collect(SensorSteps(cfg, t, diagfiles, suffix, DataTypeLabel(cfg.variable, cfg.loop)))
  }

  /** Some step of `steps` emits `w`. */
  predicate EmittedBy(steps: seq<Step>, w: Written) {
    exists i :: 0 <= i < |steps| && steps[i] == Emit(w)
  }

  /** Every file written comes from a step that emitted it. */
  lemma {:induction false} CollectSound(steps: seq<Step>)
    ensures forall k :: 0 <= k < |Collect(steps).written| ==>
      EmittedBy(steps, Collect(steps).written[k])
  {
    if steps != [] {
      CollectSound(steps[1..]);
      var run, rest := Collect(steps), Collect(steps[1..]);
      forall k | 0 <= k < |run.written|
        ensures EmittedBy(steps, run.written[k])
      {
        if steps[0].Emit? && k == 0 {
          assert steps[0] == Emit(run.written[0]);
        } else {
          var k' := if steps[0].Emit? then k - 1 else k;
          assert run.written[k] == rest.written[k'];
          assert EmittedBy(steps[1..], rest.written[k']);
          var i :| 0 <= i < |steps[1..]| && steps[1..][i] == Emit(rest.written[k']);
          assert steps[i + 1] == Emit(run.written[k]);
        }
      }
    }
  }

  /** A run that ends without an exception took no failing step and wrote the file of
      every step that emitted one. */
  lemma {:induction false} CollectComplete(steps: seq<Step>)
    requires Collect(steps).failure.None?
    ensures forall i :: 0 <= i < |steps| ==> !steps[i].Fail?
    ensures var run := Collect(steps);
      forall i :: 0 <= i < |steps| && steps[i].Emit? ==>
        exists k :: 0 <= k < |run.written| && run.written[k] == steps[i].w
  {
    if steps != [] {
      var run, rest := Collect(steps), Collect(steps[1..]);
      CollectComplete(steps[1..]);
      forall i | 0 <= i < |steps| && steps[i].Emit?
        ensures exists k :: 0 <= k < |run.written| && run.written[k] == steps[i].w
      {
        if i == 0 {
          assert run.written[0] == steps[0].w;
        } else {
          assert steps[1..][i - 1] == steps[i];
          var k :| 0 <= k < |rest.written| && rest.written[k] == steps[i].w;
          var k' := if steps[0].Emit? then k + 1 else k;
          assert run.written[k'] == rest.written[k];
        }
      }
      assert forall i :: 1 <= i < |steps| ==> steps[i] == steps[1..][i - 1];
    }
  }

  /** A run ends with an exception only when some step failed with it. */
  lemma {:induction false} CollectFailure(steps: seq<Step>)
    requires Collect(steps).failure.Some?
    ensures exists i :: 0 <= i < |steps| && steps[i] == Fail(Collect(steps).failure.value)
  {
    if !steps[0].Fail? {
      CollectFailure(steps[1..]);
      var i :| 0 <= i < |steps[1..]| && steps[1..][i] == Fail(Collect(steps[1..]).failure.value);
      assert steps[i + 1] == steps[1..][i];
    }
  }

  /** `w` is the document for sensor `name`: its diag file is listed, and the document
      names that file, carries the data type, and lists the sensor's kept levels in
      table order, each with bias correction on; it goes to the file named after the
      diag file. */
  predicate DocumentFor(cfg: Config, t: Table, diagfiles: seq<string>, suffix: string,
                        diagtype: string, name: string, w: Written) {
    var path := ExpectedDiagFile(cfg.diagdir, name, cfg.loop, cfg.cycle, suffix);
    path in diagfiles && Fits(t, name)
    && w == Written(OutputFile(cfg.yaml, path),
                    Document(path, diagtype, Descriptors(KeptLevels(t, name, cfg.monitor, |t.sensor|))))
  }

  /** One sensor: skipped exactly when its diag file is not listed; failing exactly
      when it is listed but a row of the sensor has no level or use flag; otherwise
      its document. */
  lemma SensorStepCases(cfg: Config, t: Table, diagfiles: seq<string>, suffix: string,
                        diagtype: string, name: string)
    ensures var path := ExpectedDiagFile(cfg.diagdir, name, cfg.loop, cfg.cycle, suffix);
      var step := SensorStep(cfg, t, diagfiles, suffix, diagtype, name);
      (step.Skip? <==> path !in diagfiles)
      && (step.Fail? <==> path in diagfiles && !Fits(t, name))
      && (step.Fail? ==> step.e == LevelIndexError(name))
      && (step.Emit? ==> DocumentFor(cfg, t, diagfiles, suffix, diagtype, name, step.w))
  {
    FitsIffIndexesFit(t, name);
    if Fits(t, name) {
      OzoneIsKeptLevels(t, name, cfg.monitor, |t.sensor|);
      assert t.sensor[..|t.sensor|] == t.sensor;
    }
  }

  /** The steps of the distinct sensors of `t`, in sorted order. */
  function SensorSteps(cfg: Config, t: Table, diagfiles: seq<string>, suffix: string,
                       diagtype: string): seq<Step> {
    Steps(cfg, t, diagfiles, suffix, diagtype, Unique(t.sensor))
  }

  /** Every file written is the document of a sensor of the table whose diag file is
      listed; no document is written for a sensor whose file is missing. */
  lemma RunSound(cfg: Config, t: Table, diagfiles: seq<string>, suffix: string, diagtype: string)
    ensures var run := Collect(SensorSteps(cfg, t, diagfiles, suffix, diagtype));
      forall k :: 0 <= k < |run.written| ==>
        run.written[k].doc.path in diagfiles
        && exists name :: name in t.sensor
             && DocumentFor(cfg, t, diagfiles, suffix, diagtype, name, run.written[k])
  {
    var names := Unique(t.sensor);
    var steps := SensorSteps(cfg, t, diagfiles, suffix, diagtype);
    var run := Collect(steps);
    CollectSound(steps);
    forall k | 0 <= k < |run.written|
      ensures run.written[k].doc.path in diagfiles
      ensures exists name :: name in t.sensor
                && DocumentFor(cfg, t, diagfiles, suffix, diagtype, name, run.written[k])
    {
      assert EmittedBy(steps, run.written[k]);
      var i :| 0 <= i < |steps| && steps[i] == Emit(run.written[k]);
      SensorStepCases(cfg, t, diagfiles, suffix, diagtype, names[i]);
      assert names[i] in names;
    }
  }

  /** A run that ends without an exception writes the document of every sensor of the
      table whose diag file is listed. */
  lemma RunComplete(cfg: Config, t: Table, diagfiles: seq<string>, suffix: string, diagtype: string)
    requires Collect(SensorSteps(cfg, t, diagfiles, suffix, diagtype)).failure.None?
    ensures var run := Collect(SensorSteps(cfg, t, diagfiles, suffix, diagtype));
      forall name :: (name in t.sensor
        && ExpectedDiagFile(cfg.diagdir, name, cfg.loop, cfg.cycle, suffix) in diagfiles) ==>
        exists k :: 0 <= k < |run.written|
          && DocumentFor(cfg, t, diagfiles, suffix, diagtype, name, run.written[k])
  {
    var names := Unique(t.sensor);
    var steps := SensorSteps(cfg, t, diagfiles, suffix, diagtype);
    var run := Collect(steps);
    CollectComplete(steps);
    forall name | name in t.sensor
        && ExpectedDiagFile(cfg.diagdir, name, cfg.loop, cfg.cycle, suffix) in diagfiles
      ensures exists k :: 0 <= k < |run.written|
                && DocumentFor(cfg, t, diagfiles, suffix, diagtype, name, run.written[k])
    {
      var i :| 0 <= i < |names| && names[i] == name;
      SensorStepCases(cfg, t, diagfiles, suffix, diagtype, name);
      assert !steps[i].Fail?;
      var k :| 0 <= k < |run.written| && run.written[k] == steps[i].w;
    }
  }

  /** A run ends with an exception only at a sensor of the table whose diag file is
      listed and one of whose rows lacks a level or a use flag; so never when the three
      lists have equal length. */
  lemma RunFailure(cfg: Config, t: Table, diagfiles: seq<string>, suffix: string, diagtype: string)
    ensures var run := Collect(SensorSteps(cfg, t, diagfiles, suffix, diagtype));
      (run.failure.Some? ==>
         exists name :: name in t.sensor && !Fits(t, name)
           && ExpectedDiagFile(cfg.diagdir, name, cfg.loop, cfg.cycle, suffix) in diagfiles
           && run.failure == Some(LevelIndexError(name)))
      && (|t.sensor| == |t.layer| == |t.obuse| ==> run.failure.None?)
  {
    var names := Unique(t.sensor);
    var steps := SensorSteps(cfg, t, diagfiles, suffix, diagtype);
    var run := Collect(steps);
    if run.failure.Some? {
      CollectFailure(steps);
      var i :| 0 <= i < |steps| && steps[i] == Fail(run.failure.value);
      SensorStepCases(cfg, t, diagfiles, suffix, diagtype, names[i]);
      assert names[i] in names;
    }
  }

  /** The whole script: a table with a bad level or use flag, or a listing the suffix
      cannot be derived from, ends it before anything is written; otherwise it writes
      only documents of sensors of the table whose diag file is listed, one for each
      such sensor unless a sensor's rows lack a level or use flag, which cannot happen
      when no row is short. */
  lemma ScriptDocuments(cfg: Config, lines: seq<string>, diagfiles: seq<string>)
    ensures var run := Script(cfg, lines, diagfiles);
      (OzinfoTable(lines).Err? ==> run == Run([], Some(OzinfoTable(lines).error)))
      && (OzinfoTable(lines).Ok? && DeriveSuffix(diagfiles).Err? ==>
            run == Run([], Some(DeriveSuffix(diagfiles).error)))
      && (OzinfoTable(lines).Ok? && DeriveSuffix(diagfiles).Ok? ==>
            var t, suffix := OzinfoTable(lines).value, DeriveSuffix(diagfiles).value;
            var diagtype := DataTypeLabel(cfg.variable, cfg.loop);
            (forall k :: 0 <= k < |run.written| ==>
               exists name :: name in t.sensor
                 && DocumentFor(cfg, t, diagfiles, suffix, diagtype, name, run.written[k]))
            && (run.failure.None? ==>
                  forall name :: (name in t.sensor
                    && ExpectedDiagFile(cfg.diagdir, name, cfg.loop, cfg.cycle, suffix) in diagfiles) ==>
                    exists k :: 0 <= k < |run.written|
                      && DocumentFor(cfg, t, diagfiles, suffix, diagtype, name, run.written[k]))
            && ((forall i :: 0 <= i < |lines| ==> !IsShortRow(lines[i])) ==> run.failure.None?))
  {
    if OzinfoTable(lines).Ok? && DeriveSuffix(diagfiles).Ok? {
      var t, suffix := OzinfoTable(lines).value, DeriveSuffix(diagfiles).value;
      var diagtype := DataTypeLabel(cfg.variable, cfg.loop);
      RunSound(cfg, t, diagfiles, suffix, diagtype);
      if Script(cfg, lines, diagfiles).failure.None? {
        RunComplete(cfg, t, diagfiles, suffix, diagtype);
      }
      RunFailure(cfg, t, diagfiles, suffix, diagtype);
      EqualLengthsIffNoShortRow(lines);
    }
  }

  /** The files written so far, ahead of what the rest of the run writes. */
  function Prepend(ws: seq<Written>, run: Run): Run {
    Run(ws + run.written, run.failure)
  }

  /** Lines 74-84: the descriptors of the kept entries at `sensorindx`, in order. */
  method SensorOzone(t: Table, sensorindx: seq<nat>, monitor: bool) returns (ozone: seq<Descriptor>)
    requires IndexesFit(t, sensorindx)
    ensures ozone == Ozone(t, sensorindx, monitor)
  {
    ozone := [];
    var j := 0;
    while j < |sensorindx|
      invariant 0 <= j <= |sensorindx|
      invariant ozone == Ozone(t, sensorindx[..j], monitor)
    {
      var iuse, ichan := t.obuse[sensorindx[j]], t.layer[sensorindx[j]];
      assert sensorindx[..j + 1][..j] == sensorindx[..j];
      if iuse != 1 && !monitor {
        j := j + 1;
        continue;
      }
      // The source builds the layer from `ilayer`, which is unbound; `ichan` is meant.
      ozone := ozone + [Descriptor([ichan], [true])];
      j := j + 1;
    }
    assert sensorindx[..j] == sensorindx;
  }

  /** The run from step `k` on, by what step `k` does. */
  lemma CollectFrom(steps: seq<Step>, k: nat)
    requires k < |steps|
    ensures steps[k].Skip? ==> Collect(steps[k..]) == Collect(steps[k + 1..])
    ensures steps[k].Fail? ==> Collect(steps[k..]) == Run([], Some(steps[k].e))
    ensures steps[k].Emit? ==> Collect(steps[k..]) == Prepend([steps[k].w], Collect(steps[k + 1..]))
  {
    assert steps[k..][0] == steps[k] && steps[k..][1..] == steps[k + 1..];
  }

  lemma PrependTwice(a: seq<Written>, b: seq<Written>, run: Run)
    ensures Prepend(a, Prepend(b, run)) == Prepend(a + b, run)
  {
    assert a + (b + run.written) == (a + b) + run.written;
  }

  /** Lines 55-92: one document per distinct sensor, in sorted order, skipping those
      whose diag file is not listed; the first sensor whose rows cannot be indexed
      ends the run. */
  method WriteDocuments(cfg: Config, t: Table, diagfiles: seq<string>, suffix: string,
                        diagtype: string) returns (run: Run)
    ensures run == Collect(SensorSteps(cfg, t, diagfiles, suffix, diagtype))
  {
    var uniqueSensors := Unique(t.sensor);
    ghost var steps := SensorSteps(cfg, t, diagfiles, suffix, diagtype);
    ghost var whole := Collect(steps);

    var written: seq<Written> := [];
    var k := 0;
    while k < |uniqueSensors|
      invariant 0 <= k <= |uniqueSensors|
      invariant whole == Prepend(written, Collect(steps[k..]))
    {
      var isensor := uniqueSensors[k];
      ghost var step := SensorStep(cfg, t, diagfiles, suffix, diagtype, isensor);
      assert steps[k] == step;
      CollectFrom(steps, k);
      var sensorindx := Where(t.sensor, isensor);
      var diagfile := ExpectedDiagFile(cfg.diagdir, isensor, cfg.loop, cfg.cycle, suffix);
      if diagfile !in diagfiles {
        assert step == Skip;
        k := k + 1;
        continue;
      }
      if !IndexesFit(t, sensorindx) {
        assert step == Fail(LevelIndexError(isensor));
        return Run(written, Some(LevelIndexError(isensor)));
      }
      var ozone := SensorOzone(t, sensorindx, cfg.monitor);
      var w := Written(OutputFile(cfg.yaml, diagfile), Document(diagfile, diagtype, ozone));
      assert step == Emit(w);
      PrependTwice(written, [w], Collect(steps[k + 1..]));
      written := written + [w];
      k := k + 1;
    }
    assert steps[k..] == [];
    run := Run(written, None);
  }

  /** `main`: read the table, derive the suffix, pick the data type, then build and
      write one document per distinct sensor, in sorted order, skipping sensors whose
      diag file is not listed. */
  method Ozinfo2Yaml(cfg: Config, lines: seq<string>, diagfiles: seq<string>) returns (run: Run)
    ensures run == Script(cfg, lines, diagfiles)
  {
    var table := ReadOzinfo(lines);
    if table.Err? {
      return Run([], Some(table.error));
    }
    var t := table.value;
    var derived := DeriveSuffix(diagfiles);
    if derived.Err? {
      return Run([], Some(derived.error));
    }
    var suffix := derived.value;
    var diagtype := DataTypeLabel(cfg.variable, cfg.loop);
    run := WriteDocuments(cfg, t, diagfiles, suffix, diagtype);
  }
}
