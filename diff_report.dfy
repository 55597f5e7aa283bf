/** The diff command's report (Go's printDiff): resolve both prefixes, fetch
    both experiments, then write the header, the Params section and the
    Metrics section. Nothing is written unless every lookup succeeded. */
module DiffReport {
  import opened Wrappers
  import opened MapDiff
  import opened Render
  import opened Checkpoints

  /** Everything the report is computed from. */
  datatype Sides<V> = Sides(c1: Checkpoint<V>, c2: Checkpoint<V>, e1: Experiment<V>, e2: Experiment<V>)

  /** The lookups printDiff performs before writing anything, in its order:
      both checkpoints, then the experiment of each. */
  function ResolveSides<V>(proj: Project<V>, prefix1: string, prefix2: string): (r: Result<Sides<V>, Error>)
    ensures r.Success? <==>
      (LoadCheckpoint(proj, prefix1).Success? && LoadCheckpoint(proj, prefix2).Success? &&
       proj.experimentById(LoadCheckpoint(proj, prefix1).value.experimentId).Success? &&
       proj.experimentById(LoadCheckpoint(proj, prefix2).value.experimentId).Success?)
    ensures r.Success? ==>
      r.value.c1 == LoadCheckpoint(proj, prefix1).value &&
      r.value.c2 == LoadCheckpoint(proj, prefix2).value &&
      r.value.e1 == proj.experimentById(r.value.c1.experimentId).value &&
      r.value.e2 == proj.experimentById(r.value.c2.experimentId).value
  {
    match LoadCheckpoint(proj, prefix1)
    case Failure(e) => Failure(e)
    case Success(c1) =>
      match LoadCheckpoint(proj, prefix2)
      case Failure(e) => Failure(e)
      case Success(c2) =>
        match proj.experimentById(c1.experimentId)
        case Failure(e) => Failure(e)
        case Success(e1) =>
          match proj.experimentById(c2.experimentId)
          case Failure(e) => Failure(e)
          case Success(e2) => Success(Sides(c1, c2, e1, e2))
  }

  function HeaderLines<V>(proj: Project<V>, s: Sides<V>): seq<Line>
  {
    [Header("Checkpoint:", proj.shortId(s.c1.id), proj.shortId(s.c2.id)),
     Header("Experiment:", proj.shortId(s.c1.experimentId), proj.shortId(s.c2.experimentId))]
  }

  ghost function ParamsTable<V>(show: V -> string, s: Sides<V>): seq<Line>
  {
    DiffTable(Diff(Displayed(s.e1.params, show), Displayed(s.e2.params, show)))
  }

  ghost function MetricsTable<V>(show: V -> string, s: Sides<V>): seq<Line>
  {
    DiffTable(Diff(Displayed(s.c1.metrics, show), Displayed(s.c2.metrics, show)))
  }

  /** The report around its two tables, as printDiff writes it: header,
      blank line, Params heading and table, blank line, Metrics heading and
      table, blank line. */
  function Assemble(header: seq<Line>, params: seq<Line>, metrics: seq<Line>): seq<Line>
  {
    header + [Blank, Heading("Params")] + params + [Blank] + [Heading("Metrics")] + metrics + [Blank]
  }

  /** The report's lines for resolved sides. */
  ghost function Layout<V>(proj: Project<V>, show: V -> string, s: Sides<V>): seq<Line>
  {
    Assemble(HeaderLines(proj, s), ParamsTable(show, s), MetricsTable(show, s))
  }

  /** What printDiff produces: the error of a failed lookup, or the report's
      lines. */
  ghost function Report<V>(proj: Project<V>, show: V -> string, prefix1: string, prefix2: string): Result<seq<Line>, Error>
  {
    match ResolveSides(proj, prefix1, prefix2)
    case Failure(e) => Failure(e)
    case Success(s) => Success(Layout(proj, show, s))
  }

  /** Go's printDiff. The writer is modelled by the lines returned; on an
      error no line is returned. */
  method PrintDiff<V>(proj: Project<V>, show: V -> string, prefix1: string, prefix2: string)
    returns (r: Result<seq<Line>, Error>)
    ensures r == Report(proj, show, prefix1, prefix2)
  {
    var com1 := LoadCheckpoint(proj, prefix1);
    if com1.Failure? {
      return Failure(com1.error);
    }
    var com2 := LoadCheckpoint(proj, prefix2);
    if com2.Failure? {
      return Failure(com2.error);
    }
    var exp1 := proj.experimentById(com1.value.experimentId);
    if exp1.Failure? {
      return Failure(exp1.error);
    }
    var exp2 := proj.experimentById(com2.value.experimentId);
    if exp2.Failure? {
      return Failure(exp2.error);
    }

    var lines := [Header("Checkpoint:", proj.shortId(com1.value.id), proj.shortId(com2.value.id)),
                  Header("Experiment:", proj.shortId(com1.value.experimentId), proj.shortId(com2.value.experimentId))];

    lines := lines + [Blank, Heading("Params")];
    var params1 := ParamMapToStringMap(exp1.value.params, show);
    var params2 := ParamMapToStringMap(exp2.value.params, show);
    var paramLines := PrintMapDiff(params1, params2);
    lines := lines + paramLines + [Blank];

    lines := lines + [Heading("Metrics")];
    var metrics1 := ParamMapToStringMap(com1.value.metrics, show);
    var metrics2 := ParamMapToStringMap(com2.value.metrics, show);
    var metricLines := PrintMapDiff(metrics1, metrics2);
    lines := lines + metricLines + [Blank];

    return Success(lines);
  }

  /** The report is an error exactly when a lookup fails, that lookup's
      error unchanged; otherwise it starts with the two header lines and is
      the layout of the resolved sides. */
  lemma ReportOutcome<V>(proj: Project<V>, show: V -> string, prefix1: string, prefix2: string)
    ensures Report(proj, show, prefix1, prefix2).Failure? <==> ResolveSides(proj, prefix1, prefix2).Failure?
    ensures Report(proj, show, prefix1, prefix2).Failure? ==>
      Report(proj, show, prefix1, prefix2).error == ResolveSides(proj, prefix1, prefix2).error
    ensures ResolveSides(proj, prefix1, prefix2).Success? ==>
      var s := ResolveSides(proj, prefix1, prefix2).value;
      Report(proj, show, prefix1, prefix2).value == Layout(proj, show, s) &&
      Report(proj, show, prefix1, prefix2).value[..2] == HeaderLines(proj, s)
  {
    match ResolveSides(proj, prefix1, prefix2)
    case Failure(e) =>
    case Success(s) =>
      AssembleSections(HeaderLines(proj, s), ParamsTable(show, s), MetricsTable(show, s));
  }

  /** The report fails with the error of the first failing lookup, in the
      order: first checkpoint, second checkpoint, first experiment, second
      experiment. */
  lemma ResolveFirstError<V>(proj: Project<V>, prefix1: string, prefix2: string)
    ensures LoadCheckpoint(proj, prefix1).Failure? ==>
      ResolveSides(proj, prefix1, prefix2) == Failure(LoadCheckpoint(proj, prefix1).error)
    ensures (LoadCheckpoint(proj, prefix1).Success? && LoadCheckpoint(proj, prefix2).Failure?) ==>
      ResolveSides(proj, prefix1, prefix2) == Failure(LoadCheckpoint(proj, prefix2).error)
    ensures (LoadCheckpoint(proj, prefix1).Success? && LoadCheckpoint(proj, prefix2).Success? &&
             proj.experimentById(LoadCheckpoint(proj, prefix1).value.experimentId).Failure?) ==>
      ResolveSides(proj, prefix1, prefix2) ==
        Failure(proj.experimentById(LoadCheckpoint(proj, prefix1).value.experimentId).error)
    ensures (LoadCheckpoint(proj, prefix1).Success? && LoadCheckpoint(proj, prefix2).Success? &&
             proj.experimentById(LoadCheckpoint(proj, prefix1).value.experimentId).Success? &&
             proj.experimentById(LoadCheckpoint(proj, prefix2).value.experimentId).Failure?) ==>
      ResolveSides(proj, prefix1, prefix2) ==
        Failure(proj.experimentById(LoadCheckpoint(proj, prefix2).value.experimentId).error)
  {
  }

  /** The report's sections sit at fixed places: the header lines, a blank
      line and the Params heading, the Params table, a blank line and the
      Metrics heading, the Metrics table, and a closing blank line. */
  lemma AssembleSections(h: seq<Line>, p: seq<Line>, q: seq<Line>)
    ensures var lines := Assemble(h, p, q);
      |lines| == |h| + 5 + |p| + |q| &&
      lines[..|h|] == h &&
      lines[|h|] == Blank && lines[|h| + 1] == Heading("Params") &&
      lines[|h| + 2..|h| + 2 + |p|] == p &&
      lines[|h| + 2 + |p|] == Blank && lines[|h| + 3 + |p|] == Heading("Metrics") &&
      lines[|h| + 4 + |p|..|h| + 4 + |p| + |q|] == q &&
      lines[|h| + 4 + |p| + |q|] == Blank
  {
    var front := h + [Blank, Heading("Params")];
    var middle := front + p + [Blank] + [Heading("Metrics")];
    var lines := middle + q + [Blank];
    assert lines == Assemble(h, p, q);
    assert (front + p)[|h| + 2..|h| + 2 + |p|] == p;
    assert lines[|h| + 2..|h| + 2 + |p|] == (front + p)[|h| + 2..|h| + 2 + |p|];
    assert lines[..|h|] == h;
  }

  /** Comparing a checkpoint with itself shows "(no difference)" in both
      sections. */
  lemma SameCheckpointNoDifference<V>(proj: Project<V>, show: V -> string, prefix1: string, prefix2: string)
    requires LoadCheckpoint(proj, prefix1).Success?
    requires LoadCheckpoint(proj, prefix2) == LoadCheckpoint(proj, prefix1)
    requires proj.experimentById(LoadCheckpoint(proj, prefix1).value.experimentId).Success?
    ensures ResolveSides(proj, prefix1, prefix2).Success?
    ensures var s := ResolveSides(proj, prefix1, prefix2).value;
      ParamsTable(show, s) == [NoDifference] && MetricsTable(show, s) == [NoDifference]
  {
    var s := ResolveSides(proj, prefix1, prefix2).value;
    DiffTableOfSelf(Displayed(s.e1.params, show));
    DiffTableOfSelf(Displayed(s.c1.metrics, show));
  }

  /** The formatter of string-valued parameters: the string itself. */
  function Verbatim(v: string): string
  {
    v
  }

  /** Two checkpoints whose experiments differ only in `lr` ("0.1" against
      "0.2") and whose metrics agree: the Params section is the one line
      `lr: 0.1 0.2` and the Metrics section is "(no difference)". */
  lemma LearningRateExample()
    ensures var s := Sides(
        Checkpoint("a1", "e1", map["acc" := "0.9"]),
        Checkpoint("b1", "e2", map["acc" := "0.9"]),
        Experiment("e1", map["lr" := "0.1"]),
        Experiment("e2", map["lr" := "0.2"]));
      ParamsTable(Verbatim, s) == [Entry("lr", "0.1", "0.2")] &&
      MetricsTable(Verbatim, s) == [NoDifference]
  {
    LearningRateParams();
    var m := map["acc" := "0.9"];
    assert Displayed(m, Verbatim) == m;
    DiffTableOfSelf(m);
  }

  lemma LearningRateParams()
    ensures DiffTable(Diff(Displayed(map["lr" := "0.1"], Verbatim), Displayed(map["lr" := "0.2"], Verbatim)))
      == [Entry("lr", "0.1", "0.2")]
  {
    var p1, p2 := map["lr" := "0.1"], map["lr" := "0.2"];
    assert Displayed(p1, Verbatim) == p1;
    assert Displayed(p2, Verbatim) == p2;
    assert "0.1"[2] != "0.2"[2];
    assert Diff(p1, p2).Keys == {"lr"};
    DiffBothDiffer(p1, p2, "lr");
    assert Diff(p1, p2) == map["lr" := DiffEntry(Some("0.1"), Some("0.2"))];
    SingleEntryTable("lr", DiffEntry(Some("0.1"), Some("0.2")));
  }
}
