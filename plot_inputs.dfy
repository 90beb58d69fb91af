/** The inputs of the plotting drivers: the histogram dictionary read from the histogram files,
    the plotting driver's job list, and the flag that turns on the S/B optimisation. */
module PlotInputs {
  import opened Wrappers
  import opened Strings
  import opened JobNames
  import opened JobPlanning

  /** The signal tags of `GetHistDict`: the selection driver's, the plotting driver's and the
      leading-jet study's. */
  const SelectionSignalTag: string := "Tprime"
  const PlotterSignalTag: string := "StoAA"
  const LeadMassSignalTag: string := "MX"

  /** The histogram dictionary, each histogram stood for by the file it was read from. */
  datatype HistDict = HistDict(bkg: map<string, string>, sig: map<string, string>, data: Option<string>)

  /** Where a process's histogram goes: signal when the tag occurs in it, data for "Data",
      background otherwise; a later file of the same process replaces the earlier one. */
  function Classify(d: HistDict, proc: string, f: string, tag: string): HistDict
  {
    if Contains(proc, tag) then d.(sig := d.sig[proc := f])
    else if proc == "Data" then d.(data := Some(f))
    else d.(bkg := d.bkg[proc := f])
  }

  function MissingHist(histname: string, f: string): PyError
  {
    ValueError("Histogram " + histname + " does not exist in " + f + ".")
  }

  /** A histogram dictionary whose entries sit where `Classify` puts them. */
  predicate Sorted(d: HistDict, tag: string)
  {
    (forall p :: p in d.sig ==> Contains(p, tag)) &&
    (forall p :: p in d.bkg ==> !Contains(p, tag) && p != "Data")
  }

  /** A file whose name has the three fields and which holds the histogram; `present(f, histname)`
      stands for the file's `Get(histname)` returning a histogram. */
  predicate Readable(f: string, histname: string, present: (string, string) -> bool)
  {
    ProcYearFromROOT(f).Ok? && present(f, histname)
  }

  /** `GetHistDict`: IndexError for a file name with fewer than three fields, ValueError for a
      file without the histogram, otherwise every histogram classified. */
  function HistDictOf(histname: string, files: seq<string>, present: (string, string) -> bool, tag: string): (r: Result<HistDict>)
    ensures r.Ok? <==> forall i :: 0 <= i < |files| ==> Readable(files[i], histname, present)
    ensures r.Ok? ==> Sorted(r.value, tag)
    ensures r.Err? ==> r.error == IndexError || exists i :: 0 <= i < |files| && r.error == MissingHist(histname, files[i])
    decreases |files|
  {
    if files == [] then Ok(HistDict(map[], map[], None))
    else
      var n := |files| - 1;
      assert forall i :: 0 <= i < n ==> files[..n][i] == files[i];
      match HistDictOf(histname, files[..n], present, tag)
      case Err(e) => Err(e)
      case Ok(d) =>
        var f := files[n];
        match ProcYearFromROOT(f)
        case Err(e) => Err(e)
        case Ok((proc, _)) =>
          if !present(f, histname) then Err(MissingHist(histname, f)) else Ok(Classify(d, proc, f, tag))
  }

  /** The process of a file whose name has at least three fields. */
  function ProcOf(f: string): string
    requires ProcYearFromROOT(f).Ok?
  {
    ProcYearFromROOT(f).value.0
  }

  /** The entry of a process in the dictionary, in the bucket `Classify` chooses for it. */
  function Entry(d: HistDict, proc: string, tag: string): Option<string>
  {
    if Contains(proc, tag) then (if proc in d.sig then Some(d.sig[proc]) else None)
    else if proc == "Data" then d.data
    else if proc in d.bkg then Some(d.bkg[proc])
    else None
  }

  /** Classifying a file sets its process's entry and leaves every other process's alone. */
  lemma ClassifyEntry(d: HistDict, proc: string, f: string, tag: string, p: string)
    ensures Entry(Classify(d, proc, f, tag), p, tag) == if p == proc then Some(f) else Entry(d, p, tag)
  {
  }

  /** Each histogram read ends up in its process's bucket, from the last file of that process. */
  lemma {:induction false} HistDictLastWins(histname: string, files: seq<string>, present: (string, string) -> bool, tag: string, i: nat)
    requires HistDictOf(histname, files, present, tag).Ok? && i < |files|
    requires forall j :: i < j < |files| ==> ProcOf(files[j]) != ProcOf(files[i])
    ensures Entry(HistDictOf(histname, files, present, tag).value, ProcOf(files[i]), tag) == Some(files[i])
    decreases |files|
  {
    var n := |files| - 1;
    var d := HistDictOf(histname, files[..n], present, tag).value;
    var p := ProcOf(files[i]);
    ClassifyEntry(d, ProcOf(files[n]), files[n], tag, p);
    if i < n {
      assert files[..n][i] == files[i];
      forall j | i < j < n
        ensures ProcOf(files[..n][j]) != ProcOf(files[..n][i])
      {
        assert files[..n][j] == files[j];
      }
      HistDictLastWins(histname, files[..n], present, tag, i);
    }
  }

  lemma {:induction false} HistDictPrefixFails(histname: string, files: seq<string>, present: (string, string) -> bool, tag: string, i: nat)
    requires i <= |files| && HistDictOf(histname, files[..i], present, tag).Err?
    ensures HistDictOf(histname, files, present, tag) == HistDictOf(histname, files[..i], present, tag)
    decreases |files| - i
  {
    if i < |files| {
      assert files[..i + 1][..i] == files[..i];
      HistDictPrefixFails(histname, files, present, tag, i + 1);
    } else {
      assert files[..i] == files;
    }
  }

  /** The loop of `GetHistDict`. */
  method GetHistDict(histname: string, files: seq<string>, present: (string, string) -> bool, tag: string)
    returns (r: Result<HistDict>)
    ensures r == HistDictOf(histname, files, present, tag)
  {
    var d := HistDict(map[], map[], None);
    for i := 0 to |files|
      invariant HistDictOf(histname, files[..i], present, tag) == Ok(d)
    {
      assert files[..i + 1][..i] == files[..i] && files[..i + 1][i] == files[i];
      var f := files[i];
      var parsed := ProcYearFromROOT(f);
      if parsed.Err? {
        HistDictPrefixFails(histname, files, present, tag, i + 1);
        return Err(parsed.error);
      }
      var proc := parsed.value.0;
      if !present(f, histname) {
        HistDictPrefixFails(histname, files, present, tag, i + 1);
        return Err(MissingHist(histname, f));
      }
      if Contains(proc, tag) {
        d := d.(sig := d.sig[proc := f]);
      } else if proc == "Data" {
        d := d.(data := Some(f));
      } else {
        d := d.(bkg := d.bkg[proc := f]);
      }
    }
    assert files[..|files|] == files;
    return Ok(d);
  }

  /** The plotting driver selects the TprimeB-1000 files for its comparison plots, but its
      signal tag is "StoAA", so their histograms go to the background. */
  lemma PlotterFilesTprimeAsBackground(d: HistDict, f: string)
    ensures Classify(d, "TprimeB-1000", f, PlotterSignalTag) == d.(bkg := d.bkg["TprimeB-1000" := f])
    ensures Classify(d, "TprimeB-1000", f, SelectionSignalTag) == d.(sig := d.sig["TprimeB-1000" := f])
  {
    assert 'S' in PlotterSignalTag && 'S' !in "TprimeB-1000";
    if Contains("TprimeB-1000", PlotterSignalTag) {
      ContainsHasChars("TprimeB-1000", PlotterSignalTag, 'S');
    }
    ContainsInfix("", SelectionSignalTag, "B-1000");
    assert "" + SelectionSignalTag + "B-1000" == "TprimeB-1000";
  }

  /** The jobs the plotting driver makes of one snapshot list. In studies mode a data set gets no
      job and any other set one nominal job; otherwise a set gets one job per variation. The
      efficiency is looked up with the era itself, so an era outside "16", "17" and "18" raises
      KeyError. */
  function PlotterFileJobs(f: string, studies: bool, topcut: string): (r: Result<seq<Job>>)
    ensures r.Ok? ==> ProcYearFromTxt(f).Ok?
    ensures r.Ok? ==> var (s, e) := ProcYearFromTxt(f).value;
      |r.value| == (if studies then (if Contains(s, "Data") then 0 else 1) else |SetVariations(s)|) &&
      forall j :: j in r.value ==> j.setname == s && j.era == e && j.trigEff == e && j.topcut == topcut
  {
    match ProcYearFromTxt(f)
    case Err(e) => Err(e)
    case Ok((s, e)) =>
      if studies && Contains(s, "Data") then Ok([])
      else
        match PlotterTrigEffKey(e)
        case Err(k) => Err(k)
        case Ok(key) => Ok(if studies then [Job(s, e, "None", key, topcut)] else JobsFor(s, e, key, topcut))
  }

  /** Outside studies mode, and for the eras with an efficiency, the plotting driver makes the same
      jobs as the selection driver for every set the selection driver does not skip. */
  lemma PlotterMatchesSelection(f: string)
    requires ProcYearFromTxt(f).Ok?
    requires var (s, e) := ProcYearFromTxt(f).value; HasTrigEff(e) && !SkippedAsWritten(s, e)
    ensures PlotterFileJobs(f, false, "") == FileJobs(f)
  {
    var (s, e) := ProcYearFromTxt(f).value;
    assert 'A' in "APV" && 'A' !in e;
    if Contains(e, "APV") {
      ContainsHasChars(e, "APV", 'A');
    }
  }

  /** A 16APV list stops the plotting driver with KeyError unless it is skipped as data in
      studies mode, while the selection driver reads it with the 2016 efficiency. */
  lemma PlotterRejectsAPV(f: string, studies: bool, topcut: string)
    requires ProcYearFromTxt(f).Ok? && ProcYearFromTxt(f).value.1 == "16APV"
    requires !(studies && Contains(ProcYearFromTxt(f).value.0, "Data"))
    ensures PlotterFileJobs(f, studies, topcut) == Err(KeyError("16APV"))
    ensures FileJobs(f).Ok?
  {
    ContainsInfix("16", "APV", "");
    assert "16" + "APV" + "" == "16APV";
  }

  /** The job list of `multicore`, or the error of the first list that stops it. */
  function PlotterJobsOf(files: seq<string>, studies: bool, topcut: string): (r: Result<seq<Job>>)
    ensures r.Ok? <==> forall i :: 0 <= i < |files| ==> PlotterFileJobs(files[i], studies, topcut).Ok?
    decreases |files|
  {
    if files == [] then Ok([])
    else
      var n := |files| - 1;
      assert forall i :: 0 <= i < n ==> files[..n][i] == files[i];
      match PlotterJobsOf(files[..n], studies, topcut)
      case Err(e) => Err(e)
      case Ok(js) =>
        match PlotterFileJobs(files[n], studies, topcut)
        case Err(e) => Err(e)
        case Ok(more) => Ok(js + more)
  }

  lemma {:induction false} PlotterJobsPrefixFails(files: seq<string>, studies: bool, topcut: string, i: nat)
    requires i <= |files| && PlotterJobsOf(files[..i], studies, topcut).Err?
    ensures PlotterJobsOf(files, studies, topcut) == PlotterJobsOf(files[..i], studies, topcut)
    decreases |files| - i
  {
    if i < |files| {
      assert files[..i + 1][..i] == files[..i];
      PlotterJobsPrefixFails(files, studies, topcut, i + 1);
    } else {
      assert files[..i] == files;
    }
  }

  /** The appends for one varied set: "None", then each kind and shift. */
  method AppendSetJobs(jobs: seq<Job>, setname: string, era: string, key: string, topcut: string)
    returns (r: seq<Job>)
    ensures r == jobs + JobsFor(setname, era, key, topcut)
  {
    ghost var js := JobsFor(setname, era, key, topcut);
    r := jobs + [Job(setname, era, "None", key, topcut)];
    assert js[..1] == [js[0]];
    if VariedMC(setname) {
      for a := 0 to |JmeKinds|
        invariant r == jobs + js[..1 + 2 * a]
      {
        for b := 0 to |Shifts|
          invariant r == jobs + js[..1 + 2 * a + b]
        {
          var variation := JmeKinds[a] + "_" + Shifts[b];
          VariationAt(setname, a, b);
          assert js[..1 + 2 * a + b + 1] == js[..1 + 2 * a + b] + [js[1 + 2 * a + b]];
          r := r + [Job(setname, era, variation, key, topcut)];
        }
      }
    }
    assert js[..|js|] == js;
  }

  /** The loop of `multicore` that fills its job list. */
  method Multicore(files: seq<string>, studies: bool, topcut: string) returns (r: Result<seq<Job>>)
    ensures r == PlotterJobsOf(files, studies, topcut)
  {
    var jobs: seq<Job> := [];
    for i := 0 to |files|
      invariant PlotterJobsOf(files[..i], studies, topcut) == Ok(jobs)
    {
      assert files[..i + 1][..i] == files[..i] && files[..i + 1][i] == files[i];
      var parsed := ProcYearFromTxt(files[i]);
      if parsed.Err? {
        PlotterJobsPrefixFails(files, studies, topcut, i + 1);
        return Err(parsed.error);
      }
      var setname, era := parsed.value.0, parsed.value.1;
      if !(studies && Contains(setname, "Data")) {
        var key := PlotterTrigEffKey(era);
        if key.Err? {
          PlotterJobsPrefixFails(files, studies, topcut, i + 1);
          return Err(key.error);
        }
        if studies {
          assert PlotterFileJobs(files[i], studies, topcut) == Ok([Job(setname, era, "None", key.value, topcut)]);
          jobs := jobs + [Job(setname, era, "None", key.value, topcut)];
        } else {
          assert PlotterFileJobs(files[i], studies, topcut) == Ok(JobsFor(setname, era, key.value, topcut));
          jobs := AppendSetJobs(jobs, setname, era, key.value, topcut);
        }
      } else {
        assert PlotterFileJobs(files[i], studies, topcut) == Ok([]);
        assert jobs + [] == jobs;
      }
    }
    assert files[..|files|] == files;
    return Ok(jobs);
  }

  /** `plot`'s flag for the S/B optimisation: the tagger-score histograms. */
  predicate Optimize(histname: string)
  {
    StartsWith(histname, "deep") || StartsWith(histname, "particleNet")
  }

  /** Every deep-tagger and ParticleNet histogram is optimised, and any other histogram starts
      with neither 'd' nor 'p' followed by the rest of those prefixes. */
  lemma OptimizeFamilies(rest: string, histname: string)
    ensures Optimize("deep" + rest) && Optimize("particleNet" + rest)
    ensures Optimize(histname) ==> |histname| >= 4 && (histname[..4] == "deep" || histname[..4] == "part")
  {
    assert "deep" <= "deep" + rest;
    assert "particleNet" <= "particleNet" + rest;
    if StartsWith(histname, "particleNet") {
      assert histname[..4] == "particleNet"[..4];
    }
  }
}
