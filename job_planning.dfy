/** The job lists of the selection driver: one entry per (set, era, variation) read from the
    snapshot lists, the combinations already on disk, and the jobs still to run. */
module JobPlanning {
  import opened Wrappers
  import opened Strings
  import opened JobNames
  import SelectionScripts

  /** The jet-energy and jet-mass calibrations the drivers vary, and the two shifts of each. */
  const JmeKinds: seq<string> := ["JES", "JER", "JMS", "JMR"]
  const Shifts: seq<string> := ["up", "down"]

  /** The `i`-th varied name `<kind>_<shift>`, in the drivers' loop order (kind outer, shift inner). */
  function JmeVariation(i: nat): (v: string)
    requires i < 8
    ensures JobVariation(v, JmeKinds[i / 2], Shifts[i % 2]) && v != "None"
    ensures v[..3] == JmeKinds[i / 2] && v[4..] == Shifts[i % 2]
  {
    assert Plain(JmeKinds[i / 2]) && Plain(Shifts[i % 2]);
    JmeKinds[i / 2] + "_" + Shifts[i % 2]
  }

  /** Different loop positions give different names. */
  lemma JmeVariationInjective(i: nat, j: nat)
    requires i < 8 && j < 8 && JmeVariation(i) == JmeVariation(j)
    ensures i == j
  {
    var v := JmeVariation(i);
    assert JmeKinds[i / 2] == v[..3] == JmeKinds[j / 2];
    assert Shifts[i % 2] == v[4..] == Shifts[j % 2];
  }

  /** A set the drivers vary: neither data nor QCD. */
  predicate VariedMC(setname: string)
  {
    !Contains(setname, "Data") && !Contains(setname, "QCD")
  }

  /** The variations run for a set: "None", then the eight varied names for varied MC. */
  function SetVariations(setname: string): (vs: seq<string>)
    ensures |vs| == if VariedMC(setname) then 9 else 1
    ensures vs[0] == "None"
  {
    ["None"] + if VariedMC(setname) then seq(8, i requires 0 <= i < 8 => JmeVariation(i)) else []
  }

  /** The variations of a set are pairwise different, and each reads back from a file name. */
  lemma SetVariationsDistinct(setname: string, i: nat, j: nat)
    requires i < j < |SetVariations(setname)|
    ensures SetVariations(setname)[i] != SetVariations(setname)[j]
  {
    var vs := SetVariations(setname);
    if i > 0 && vs[i] == vs[j] {
      assert vs[i] == JmeVariation(i - 1) && vs[j] == JmeVariation(j - 1);
      JmeVariationInjective(i - 1, j - 1);
    }
  }

  /** The first variation is nominal and the others are the varied names in loop order. */
  lemma SetVariationsOrder(setname: string, i: nat)
    requires 1 <= i < |SetVariations(setname)|
    ensures VariedMC(setname) && SetVariations(setname)[i] == JmeKinds[(i - 1) / 2] + "_" + Shifts[(i - 1) % 2]
  {
  }

  /** Kind `a` with shift `b` sits at position `1 + 2a + b`. */
  lemma VariationAt(setname: string, a: nat, b: nat)
    requires VariedMC(setname) && a < 4 && b < 2
    ensures SetVariations(setname)[1 + 2 * a + b] == JmeKinds[a] + "_" + Shifts[b]
  {
    var i := 2 * a + b;
    assert i / 2 == a && i % 2 == b;
    assert SetVariations(setname)[1 + i] == JmeVariation(i);
  }

  /** One entry of the job dictionary; `trigEff` is the key of the trigger efficiency it uses. */
  datatype Job = Job(setname: string, era: string, variation: string, trigEff: string, topcut: string)

  function Key(j: Job): string
  {
    JobKey(j.setname, j.era, j.variation)
  }

  /** What every job of the selection driver satisfies. */
  predicate ValidJob(j: Job)
  {
    Plain(j.setname) && Plain(j.era) && j.variation in SetVariations(j.setname) &&
    !SkippedAsWritten(j.setname, j.era) && TrigEffKey(j.era) == Ok(j.trigEff) && j.topcut == ""
  }

  /** The jobs of one set and era, one per variation. */
  function JobsFor(setname: string, era: string, key: string, topcut: string): (js: seq<Job>)
    ensures |js| == |SetVariations(setname)|
    ensures forall i :: 0 <= i < |js| ==> js[i] == Job(setname, era, SetVariations(setname)[i], key, topcut)
  {
    var vs := SetVariations(setname);
    seq(|vs|, i requires 0 <= i < |vs| => Job(setname, era, vs[i], key, topcut))
  }

  /** The jobs one snapshot list contributes: IndexError for a name with fewer than two fields,
      none for a skipped set, KeyError for an era without a trigger efficiency. */
  function FileJobs(f: string): (r: Result<seq<Job>>)
    ensures r.Err? <==> ProcYearFromTxt(f).Err? ||
                        (var (s, e) := ProcYearFromTxt(f).value; !SkippedAsWritten(s, e) && TrigEffKey(e).Err?)
    ensures r.Ok? ==> forall j :: j in r.value ==> ValidJob(j)
    ensures r.Ok? ==> var (s, e) := ProcYearFromTxt(f).value;
      |r.value| == (if SkippedAsWritten(s, e) then 0 else |SetVariations(s)|)
  {
    match ProcYearFromTxt(f)
    case Err(e) => Err(e)
    case Ok((s, e)) =>
      if SkippedAsWritten(s, e) then Ok([])
      else
        match TrigEffKey(e)
        case Err(k) => Err(k)
        case Ok(key) =>
          assert Plain(s) && Plain(e) by {
            assert s == Pieces(f)[0] && e == Pieces(f)[1];
          }
          Ok(JobsFor(s, e, key, ""))
  }

  /** A set that is run gets its variations' keys, pairwise different: nine for varied MC,
      one ("None") for data and QCD. */
  lemma FileJobKeys(f: string, i: nat, j: nat)
    requires FileJobs(f).Ok? && i < j < |FileJobs(f).value|
    ensures Key(FileJobs(f).value[i]) != Key(FileJobs(f).value[j])
  {
    var js := FileJobs(f).value;
    var (s, e) := ProcYearFromTxt(f).value;
    assert js == JobsFor(s, e, TrigEffKey(e).value, "");
    SetVariationsDistinct(s, i, j);
    var p := s + " " + e + " ";
    assert Key(js[i]) == p + js[i].variation && Key(js[j]) == p + js[j].variation;
    assert js[i].variation == Key(js[i])[|p|..] && js[j].variation == Key(js[j])[|p|..];
  }

  /** The dictionary after inserting `js` in order (a later job with the same key replaces an
      earlier one). */
  function Insert(m: map<string, Job>, js: seq<Job>): map<string, Job>
    decreases |js|
  {
    if js == [] then m else Insert(m, js[..|js| - 1])[Key(js[|js| - 1]) := js[|js| - 1]]
  }

  /** One more insertion, in the shape of the driver's assignment. */
  lemma InsertStep(m: map<string, Job>, js: seq<Job>, k: nat)
    requires k < |js|
    ensures Insert(m, js[..k + 1]) == Insert(m, js[..k])[Key(js[k]) := js[k]]
  {
    assert js[..k + 1][..k] == js[..k];
  }

  /** Inserting keeps the old keys and adds the key of every inserted job. */
  lemma {:induction false} InsertKeys(m: map<string, Job>, js: seq<Job>)
    ensures forall k :: k in m ==> k in Insert(m, js)
    ensures forall j :: j in js ==> Key(j) in Insert(m, js)
    decreases |js|
  {
    if js != [] {
      var init := js[..|js| - 1];
      InsertKeys(m, init);
      assert forall j :: j in js ==> j in init || j == js[|js| - 1];
    }
  }

  /** Every entry stays under its own key, and the entries are the valid jobs they started as. */
  predicate KeyedValid(m: map<string, Job>)
  {
    forall k :: k in m ==> Key(m[k]) == k && ValidJob(m[k])
  }

  /** Inserting valid jobs keeps every entry under its own key, and keeps only valid jobs. */
  lemma {:induction false} InsertValid(m: map<string, Job>, js: seq<Job>)
    requires KeyedValid(m)
    requires forall j :: j in js ==> ValidJob(j)
    ensures KeyedValid(Insert(m, js))
    decreases |js|
  {
    if js != [] {
      var init, last := js[..|js| - 1], js[|js| - 1];
      assert forall j :: j in init ==> j in js;
      InsertValid(m, init);
      assert last in js;
    }
  }

  /** The job dictionary the selection driver builds from its snapshot lists, or the error that
      stops it. */
  function ProcessArgs(files: seq<string>): (r: Result<map<string, Job>>)
    ensures r.Ok? ==> KeyedValid(r.value)
    decreases |files|
  {
    if files == [] then Ok(map[])
    else
      match ProcessArgs(files[..|files| - 1])
      case Err(e) => Err(e)
      case Ok(m) =>
        match FileJobs(files[|files| - 1])
        case Err(e) => Err(e)
        case Ok(js) =>
          InsertValid(m, js);
          Ok(Insert(m, js))
  }

  /** The driver stops exactly when one of its lists has a malformed name or an era without a
      trigger efficiency, and then with the error of the first such list. */
  lemma {:induction false} ProcessArgsFails(files: seq<string>)
    ensures ProcessArgs(files).Err? <==> SomeListFails(files)
    decreases |files|
  {
    if files != [] {
      ProcessArgsFails(files[..|files| - 1]);
      ProcessArgsErrStep(files);
      SomeListFailsSnoc(files);
    }
  }

  /** Some list of `files` has a malformed name or an era without a trigger efficiency. */
  ghost predicate SomeListFails(files: seq<string>)
  {
    exists i :: 0 <= i < |files| && FileJobs(files[i]).Err?
  }

  /** A list fails exactly when one before the last does or the last does. */
  lemma SomeListFailsSnoc(files: seq<string>)
    requires files != []
    ensures SomeListFails(files) <==>
      SomeListFails(files[..|files| - 1]) || FileJobs(files[|files| - 1]).Err?
  {
    var n := |files| - 1;
    assert forall i :: 0 <= i < n ==> files[..n][i] == files[i];
  }

  /** One more list fails the driver exactly when the earlier ones did or this one does. */
  lemma ProcessArgsErrStep(files: seq<string>)
    requires files != []
    ensures ProcessArgs(files).Err? <==>
      ProcessArgs(files[..|files| - 1]).Err? || FileJobs(files[|files| - 1]).Err?
  {
  }

  /** When one list fails, everything from there on fails with the same error. */
  lemma {:induction false} ProcessArgsPrefixFails(files: seq<string>, i: nat)
    requires i <= |files| && ProcessArgs(files[..i]).Err?
    ensures ProcessArgs(files) == ProcessArgs(files[..i])
    decreases |files| - i
  {
    if i < |files| {
      assert files[..i + 1][..i] == files[..i];
      ProcessArgsPrefixFails(files, i + 1);
    } else {
      assert files[..i] == files;
    }
  }

  /** Every job of a list that is read ends up in the dictionary. */
  lemma {:induction false} ProcessArgsComplete(files: seq<string>, i: nat, j: Job)
    requires ProcessArgs(files).Ok? && i < |files|
    ensures FileJobs(files[i]).Ok?
    ensures j in FileJobs(files[i]).value ==> Key(j) in ProcessArgs(files).value
    decreases |files|
  {
    var n := |files| - 1;
    var m := ProcessArgs(files[..n]).value;
    InsertKeys(m, FileJobs(files[n]).value);
    if i < n {
      assert files[..n][i] == files[i];
      ProcessArgsComplete(files[..n], i, j);
    }
  }

  /** The insertions for one set and era: "None", then for varied MC each kind and shift. */
  method AddSetJobs(m: map<string, Job>, setname: string, era: string, key: string) returns (r: map<string, Job>)
    ensures r == Insert(m, JobsFor(setname, era, key, ""))
  {
    ghost var js := JobsFor(setname, era, key, "");
    r := m[JobKey(setname, era, "None") := Job(setname, era, "None", key, "")];
    assert js[..1] == [js[0]];
    if VariedMC(setname) {
      for a := 0 to |JmeKinds|
        invariant r == Insert(m, js[..1 + 2 * a])
      {
        for b := 0 to |Shifts|
          invariant r == Insert(m, js[..1 + 2 * a + b])
        {
          var variation := JmeKinds[a] + "_" + Shifts[b];
          VariationAt(setname, a, b);
          InsertStep(m, js, 1 + 2 * a + b);
          r := r[JobKey(setname, era, variation) := Job(setname, era, variation, key, "")];
        }
      }
    }
    assert js[..|js|] == js;
  }

  /** The selection driver's loop over its snapshot lists. */
  method BuildProcessArgs(files: seq<string>) returns (r: Result<map<string, Job>>)
    ensures r == ProcessArgs(files)
  {
    var m: map<string, Job> := map[];
    for i := 0 to |files|
      invariant ProcessArgs(files[..i]) == Ok(m)
    {
      assert files[..i + 1][..i] == files[..i] && files[..i + 1][i] == files[i];
      var parsed := ProcYearFromTxt(files[i]);
      if parsed.Err? {
        ProcessArgsPrefixFails(files, i + 1);
        return Err(parsed.error);
      }
      var setname, era := parsed.value.0, parsed.value.1;
      if !SkippedAsWritten(setname, era) {
        var key := TrigEffKey(era);
        if key.Err? {
          ProcessArgsPrefixFails(files, i + 1);
          return Err(key.error);
        }
        assert FileJobs(files[i]) == Ok(JobsFor(setname, era, key.value, ""));
        m := AddSetJobs(m, setname, era, key.value);
      } else {
        assert FileJobs(files[i]) == Ok([]);
      }
    }
    assert files[..|files|] == files;
    return Ok(m);
  }

  /** The output of a job reads back as the job's key. */
  lemma JobOutputRoundTrip(HT: string, j: Job)
    requires ValidJob(j) && Plain(HT)
    ensures ParseResultName(SelectionScripts.OutputName(HT, j.setname, "", j.era, j.variation)) == Ok(Key(j))
  {
    var vs := SetVariations(j.setname);
    var i :| 0 <= i < |vs| && vs[i] == j.variation;
    if i == 0 {
      ParseResultNameRoundTrip(HT, j.setname, j.era, j.variation, "", "");
    } else {
      assert vs[i] == JmeVariation(i - 1);
      ParseResultNameRoundTrip(HT, j.setname, j.era, j.variation, JmeKinds[(i - 1) / 2], Shifts[(i - 1) % 2]);
    }
  }

  /** The combinations read back from the existing result files, in order, or the error of the
      first name that does not parse. */
  function Combinations(names: seq<string>): (r: Result<seq<string>>)
    ensures r.Ok? ==> |r.value| == |names| && forall i :: 0 <= i < |names| ==> ParseResultName(names[i]) == Ok(r.value[i])
    ensures r.Err? ==> exists i :: 0 <= i < |names| && ParseResultName(names[i]).Err?
    decreases |names|
  {
    if names == [] then Ok([])
    else
      var n := |names| - 1;
      assert forall i :: 0 <= i < n ==> names[..n][i] == names[i];
      match Combinations(names[..n])
      case Err(e) => Err(e)
      case Ok(cs) =>
        match ParseResultName(names[n])
        case Err(e) => Err(e)
        case Ok(c) => Ok(cs + [c])
  }

  lemma {:induction false} CombinationsPrefixFails(names: seq<string>, i: nat)
    requires i <= |names| && Combinations(names[..i]).Err?
    ensures Combinations(names) == Combinations(names[..i])
    decreases |names| - i
  {
    if i < |names| {
      assert names[..i + 1][..i] == names[..i];
      CombinationsPrefixFails(names, i + 1);
    } else {
      assert names[..i] == names;
    }
  }

  /** The driver's loop over the existing result files. */
  method ParseCombinations(names: seq<string>) returns (r: Result<seq<string>>)
    ensures r == Combinations(names)
  {
    var cs: seq<string> := [];
    for i := 0 to |names|
      invariant Combinations(names[..i]) == Ok(cs)
    {
      assert names[..i + 1][..i] == names[..i] && names[..i + 1][i] == names[i];
      var c := ParseResultName(names[i]);
      if c.Err? {
        CombinationsPrefixFails(names, i + 1);
        return Err(c.error);
      }
      cs := cs + [c.value];
    }
    assert names[..|names|] == names;
    return Ok(cs);
  }

  /** The keys still to run: those not among the combinations already on disk. */
  function PendingKeys(m: map<string, Job>, combinations: seq<string>): set<string>
  {
    set k | k in m && k !in combinations
  }

  /** A job whose output is already on disk is not run again, and one whose key no result file
      gives is. */
  lemma FinishedJobsNotPending(files: seq<string>, HT: string, outputs: seq<string>, k: string)
    requires ProcessArgs(files).Ok? && k in ProcessArgs(files).value && Plain(HT)
    requires Combinations(outputs).Ok?
    ensures var j := ProcessArgs(files).value[k];
      k in PendingKeys(ProcessArgs(files).value, Combinations(outputs).value) <==>
      SelectionScripts.OutputName(HT, j.setname, "", j.era, j.variation) !in outputs &&
      forall i :: 0 <= i < |outputs| ==> ParseResultName(outputs[i]) != Ok(k)
  {
    var m, cs := ProcessArgs(files).value, Combinations(outputs).value;
    var j := m[k];
    JobOutputRoundTrip(HT, j);
    var out := SelectionScripts.OutputName(HT, j.setname, "", j.era, j.variation);
    if out in outputs {
      var i :| 0 <= i < |outputs| && outputs[i] == out;
      assert cs[i] == k;
    }
    if k in cs {
      var i :| 0 <= i < |cs| && cs[i] == k;
      assert ParseResultName(outputs[i]) == Ok(k);
    }
  }
}
