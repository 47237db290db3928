/** The diagnostic-file names of ozinfo2yaml.py's `main`: the suffix shared by the files
    of a cycle, taken from one listed file; the file expected for a sensor; and the name
    of the YAML file written for it. A GSI diag file is named
    `diag_<sensor>_<loop>.<cycle><suffix>`, the cycle being ten characters (YYYYMMDDHH). */
module DiagFiles {
  import opened Base
  import opened Text

  /** Python's `s[n:]`: `s` without its first `n` characters, empty when it is shorter. */
  function DropFirst(s: string, n: nat): string {
    if |s| <= n then [] else s[n..]
  }

  /** The suffix of the diag files, derived from the first file of the listing: the
      text of its second-to-last '.'-separated piece after the ten cycle characters,
      a '.', and its last piece. An empty listing and a basename without '.' both end
      the run with an IndexError. */
  function DeriveSuffix(diagfiles: seq<string>): Result<string> {
    if diagfiles == [] then Err(NoDiagFiles)
    else
      var tmpsuffix := Split(Basename(diagfiles[0]), '.');
      var n := |tmpsuffix|;
      if n < 2 then Err(NoDotInName(Basename(diagfiles[0])))
      else Ok(DropFirst(tmpsuffix[n - 2], 10) + "." + tmpsuffix[n - 1])
  }

  /** The two ways the suffix cannot be derived, and no other. */
  lemma DeriveSuffixFails(diagfiles: seq<string>)
    ensures DeriveSuffix(diagfiles) == Err(NoDiagFiles) <==> diagfiles == []
    ensures DeriveSuffix(diagfiles).Err? <==>
      diagfiles == [] || '.' !in Basename(diagfiles[0])
  {
  }

  /** The basename the script expects for a sensor. */
  function DiagName(sensor: string, loop: string, cycle: string, suffix: string): string {
    "diag_" + sensor + "_" + loop + "." + cycle + suffix
  }

  /** The path the script looks for in the listing for a sensor (lines 63-65). */
  function ExpectedDiagFile(diagdir: string, sensor: string, loop: string, cycle: string,
                            suffix: string): string {
    PathJoin(diagdir, DiagName(sensor, loop, cycle, suffix))
  }

  /** The YAML file written for a diag file: the prefix, the basename up to its first
      '.', and ".yaml" (lines 86-87). */
  function OutputFile(yamlPrefix: string, diagfile: string): string {
    yamlPrefix + Before(Basename(diagfile), '.') + ".yaml"
  }

  /** The last two '.'-separated pieces of `head.mid.ext`, when `mid` and `ext` have
      no '.'. */
  lemma LastTwoPieces(head: string, mid: string, ext: string)
    requires '.' !in mid && '.' !in ext
    ensures var p := Split(head + ['.'] + (mid + ['.'] + ext), '.');
      |p| >= 2 && p[|p| - 2] == mid && p[|p| - 1] == ext
  {
    SplitAround(head, '.', mid + ['.'] + ext);
    SplitAround(mid, '.', ext);
    assert Split(mid, '.') == [mid];
    assert Split(ext, '.') == [ext];
  }

  lemma NoSlashInName(sensor: string, loop: string, cycle: string, suffix: string)
    requires '/' !in sensor && '/' !in loop && '/' !in cycle && '/' !in suffix
    ensures '/' !in DiagName(sensor, loop, cycle, suffix)
  {
    var name := DiagName(sensor, loop, cycle, suffix);
    forall i | 0 <= i < |name|
      ensures name[i] != '/'
    {
      var parts := ["diag_", sensor, "_", loop, ".", cycle, suffix];
      assert name == parts[0] + parts[1] + parts[2] + parts[3] + parts[4] + parts[5] + parts[6];
    }
  }

  /** Suffix round trip: when the first listed file is `diag_S_L.CT.E` in `diagdir`, with
      a ten-character cycle `C` and no '.' in `C`, `T` or `E`, the suffix derived from
      it is `T.E`, and the path rebuilt for sensor `S`, loop `L` and cycle `C` is that
      very file, so the sensor's document is written. */
  lemma SuffixRoundTrip(diagdir: string, sensor: string, loop: string,
                        cycle: string, tail: string, ext: string, others: seq<string>)
    requires |cycle| == 10
    requires '.' !in cycle && '.' !in tail && '.' !in ext
    requires '/' !in sensor && '/' !in loop && '/' !in cycle && '/' !in tail && '/' !in ext
    ensures var example := ExpectedDiagFile(diagdir, sensor, loop, cycle, tail + "." + ext);
      DeriveSuffix([example] + others) == Ok(tail + "." + ext)
  {
    var suffix := tail + "." + ext;
    var head := "diag_" + sensor + "_" + loop;
    var name := DiagName(sensor, loop, cycle, suffix);
    var example := PathJoin(diagdir, name);
    assert name == head + ['.'] + ((cycle + tail) + ['.'] + ext);
    assert '/' !in suffix;
    NoSlashInName(sensor, loop, cycle, suffix);
    BasenameOfJoin(diagdir, name);
    LastTwoPieces(head, cycle + tail, ext);
    assert DropFirst(cycle + tail, 10) == tail;
    assert ([example] + others)[0] == example;
  }

  /** The output file is named after the sensor and the loop only: the prefix,
      `diag_<sensor>_<loop>` and ".yaml", whatever the cycle and the suffix. */
  lemma OutputFileOfSensor(yamlPrefix: string, diagdir: string, sensor: string, loop: string,
                           cycle: string, suffix: string)
    requires '.' !in sensor && '.' !in loop
    requires '/' !in sensor && '/' !in loop && '/' !in cycle && '/' !in suffix
    ensures OutputFile(yamlPrefix, ExpectedDiagFile(diagdir, sensor, loop, cycle, suffix))
         == yamlPrefix + "diag_" + sensor + "_" + loop + ".yaml"
  {
    var head := "diag_" + sensor + "_" + loop;
    var name := DiagName(sensor, loop, cycle, suffix);
    assert name == head + ['.'] + (cycle + suffix);
    NoSlashInName(sensor, loop, cycle, suffix);
    BasenameOfJoin(diagdir, name);
    BeforeAround(head, '.', cycle + suffix);
  }

  /** A sensor name with a '.': the output file is cut at that '.', so it is named
      after the part of the sensor name before its first '.'. */
  lemma OutputFileOfDottedSensor(yamlPrefix: string, diagdir: string, head: string, tail: string,
                                 loop: string, cycle: string, suffix: string)
    requires '.' !in head
    requires '/' !in head && '/' !in tail && '/' !in loop && '/' !in cycle && '/' !in suffix
    ensures OutputFile(yamlPrefix, ExpectedDiagFile(diagdir, head + "." + tail, loop, cycle, suffix))
         == yamlPrefix + "diag_" + head + ".yaml"
  {
    var sensor := head + "." + tail;
    var h, rest := "diag_" + head, tail + "_" + loop + "." + cycle + suffix;
    var name := DiagName(sensor, loop, cycle, suffix);
    assert name == h + ['.'] + rest;
    assert '/' !in sensor by {
      assert sensor == head + ['.'] + tail;
    }
    assert '.' !in h by {
      assert forall i :: 0 <= i < |h| ==> h[i] == if i < 5 then "diag_"[i] else head[i - 5];
    }
    NoSlashInName(sensor, loop, cycle, suffix);
    BasenameOfJoin(diagdir, name);
    BeforeAround(h, '.', rest);
  }

  /** Two sensors whose names agree up to a '.' write the same output file, so the
      later one overwrites the earlier one's document. */
  lemma OutputFileCollision(yamlPrefix: string, diagdir: string, head: string, tail1: string,
                            tail2: string, loop: string, cycle: string, suffix: string)
    requires '.' !in head
    requires '/' !in head && '/' !in tail1 && '/' !in tail2 && '/' !in loop && '/' !in cycle
    requires '/' !in suffix
    ensures OutputFile(yamlPrefix, ExpectedDiagFile(diagdir, head + "." + tail1, loop, cycle, suffix))
         == OutputFile(yamlPrefix, ExpectedDiagFile(diagdir, head + "." + tail2, loop, cycle, suffix))
  {
    OutputFileOfDottedSensor(yamlPrefix, diagdir, head, tail1, loop, cycle, suffix);
    OutputFileOfDottedSensor(yamlPrefix, diagdir, head, tail2, loop, cycle, suffix);
  }
}
