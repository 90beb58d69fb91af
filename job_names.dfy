/** The file-name conventions of the job drivers: the (process, year) read from a snapshot list or
    a histogram file, the rule that skips sets with empty trees, the trigger-efficiency key of an
    era, and the (set, era, variation) combination read back from an existing selection output. */
module JobNames {
  import opened Wrappers
  import opened Strings
  import SelectionScripts

  /** The basename up to its first '.'. */
  function Stem(filename: string): (s: string)
    ensures '.' !in s && '/' !in s
  {
    var base := LastField(filename, '/');
    SplitFieldsWithout(base, '.', '/');
    Split(base, '.')[0]
  }

  /** The '_'-fields of the stem. */
  function Pieces(filename: string): (p: seq<string>)
    ensures |p| >= 1
    ensures forall i :: 0 <= i < |p| ==> '_' !in p[i] && '.' !in p[i] && '/' !in p[i]
  {
    var s := Stem(filename);
    SplitFieldsWithout(s, '_', '.');
    SplitFieldsWithout(s, '_', '/');
    Split(s, '_')
  }

  /** `GetProcYearFromTxt`: fields 0 and 1 (IndexError with fewer than two). */
  function ProcYearFromTxt(filename: string): (r: Result<(string, string)>)
    ensures r.Ok? <==> |Pieces(filename)| >= 2
    ensures r.Err? ==> r.error == IndexError
    ensures r.Ok? ==> r.value == (Pieces(filename)[0], Pieces(filename)[1])
  {
    var p := Pieces(filename);
    if |p| >= 2 then Ok((p[0], p[1])) else Err(IndexError)
  }

  /** `GetProcYearFromROOT`: fields 1 and 2 (IndexError with fewer than three). */
  function ProcYearFromROOT(filename: string): (r: Result<(string, string)>)
    ensures r.Ok? <==> |Pieces(filename)| >= 3
    ensures r.Err? ==> r.error == IndexError
    ensures r.Ok? ==> r.value == (Pieces(filename)[1], Pieces(filename)[2])
  {
    var p := Pieces(filename);
    if |p| >= 3 then Ok((p[1], p[2])) else Err(IndexError)
  }

  /** A name part the conventions can carry: no '_', '.' or '/'. */
  predicate Plain(s: string)
  {
    '_' !in s && '.' !in s && '/' !in s
  }

  /** The stem of `<dir>/<stem>.<ext>` when the stem has no '.' or '/'. */
  lemma StemOf(dir: string, stem: string, ext: string)
    requires '.' !in stem && '/' !in stem && '/' !in ext
    ensures Stem(dir + "/" + stem + "." + ext) == stem
  {
    var base := stem + "." + ext;
    assert dir + "/" + stem + "." + ext == dir + ['/'] + base;
    LastFieldAfter(dir, base, '/');
    SplitFirst(stem, ext, '.');
  }

  /** A snapshot list `<dir>/<set>_<era>_snapshot.txt` gives back its set and era. */
  lemma TxtRoundTrip(dir: string, setname: string, era: string)
    requires Plain(setname) && Plain(era)
    ensures ProcYearFromTxt(dir + "/" + setname + "_" + era + "_snapshot.txt") == Ok((setname, era))
  {
    var stem := setname + "_" + era + "_snapshot";
    assert dir + "/" + setname + "_" + era + "_snapshot.txt" == dir + "/" + stem + "." + "txt";
    StemOf(dir, stem, "txt");
    assert stem == setname + ['_'] + (era + ['_'] + "snapshot");
    SplitFirst(setname, era + ['_'] + "snapshot", '_');
    SplitFirst(era, "snapshot", '_');
  }

  /** A histogram file `<dir>/<prefix>_<proc>_<year>.root` gives back its process and year. */
  lemma RootRoundTrip(dir: string, prefix: string, proc: string, year: string)
    requires Plain(prefix) && Plain(proc) && Plain(year)
    ensures ProcYearFromROOT(dir + "/" + prefix + "_" + proc + "_" + year + ".root") == Ok((proc, year))
  {
    var stem := prefix + "_" + proc + "_" + year;
    assert dir + "/" + prefix + "_" + proc + "_" + year + ".root" == dir + "/" + stem + "." + "root";
    StemOf(dir, stem, "root");
    assert stem == prefix + ['_'] + (proc + ['_'] + year);
    SplitFirst(prefix, proc + ['_'] + year, '_');
    SplitFirst(proc, year, '_');
    SplitNoSeparator(year, '_');
  }

  /** The skip rule of the selection driver: HT200 and HT400 sets, and ZJetsHT400 in 16APV or 18. */
  predicate SkippedAsWritten(setname: string, era: string)
  {
    Contains(setname, "HT200") || Contains(setname, "HT400") ||
    (Contains(setname, "ZJetsHT400") && (Contains(era, "16APV") || Contains(era, "18")))
  }

  /** The third clause adds nothing: every ZJetsHT400 set already contains "HT400". */
  lemma SkipRuleSimplifies(setname: string, era: string)
    ensures SkippedAsWritten(setname, era) <==> Contains(setname, "HT200") || Contains(setname, "HT400")
  {
    ContainsInfix("ZJets", "HT400", "");
    assert "ZJets" + "HT400" + "" == "ZJetsHT400";
    if Contains(setname, "ZJetsHT400") {
      ContainsTransitive(setname, "ZJetsHT400", "HT400");
    }
  }

  /** The trigger-efficiency entries exist for "16", "17" and "18". */
  predicate HasTrigEff(key: string)
  {
    key == "16" || key == "17" || key == "18"
  }

  /** The selection driver's lookup `teff[era if 'APV' not in era else '16']`. */
  function TrigEffKey(era: string): (r: Result<string>)
    ensures r.Ok? ==> HasTrigEff(r.value)
    ensures Contains(era, "APV") ==> r == Ok("16")
    ensures !Contains(era, "APV") ==> (r.Ok? <==> HasTrigEff(era)) && (r.Ok? ==> r.value == era)
    ensures r.Err? ==> r == Err(KeyError(era))
  {
    var key := if Contains(era, "APV") then "16" else era;
    if HasTrigEff(key) then Ok(key) else Err(KeyError(key))
  }

  /** The plotting driver's lookup `teff[era]`, which has no entry for the APV half of 2016. */
  function PlotterTrigEffKey(era: string): (r: Result<string>)
    ensures r.Ok? <==> HasTrigEff(era)
    ensures r.Ok? ==> r.value == era
    ensures r.Err? ==> r == Err(KeyError(era))
  {
    if HasTrigEff(era) then Ok(era) else Err(KeyError(era))
  }

  /** "16APV" reaches the 2016 efficiency in the selection driver and raises KeyError in the
      plotting driver; the two lookups agree on the other three eras. */
  lemma TrigEffKeysCompared(era: string)
    requires HasTrigEff(era)
    ensures TrigEffKey("16APV") == Ok("16")
    ensures PlotterTrigEffKey("16APV") == Err(KeyError("16APV"))
    ensures TrigEffKey(era) == PlotterTrigEffKey(era)
  {
    ContainsInfix("16", "APV", "");
    assert "16" + "APV" + "" == "16APV";
    assert 'A' in "APV" && 'A' !in era;
    if Contains(era, "APV") {
      ContainsHasChars(era, "APV", 'A');
    }
  }

  /** The job key `<set> <era> <variation>`. */
  function JobKey(setname: string, era: string, variation: string): string
  {
    setname + " " + era + " " + variation
  }

  /** The combination read from the '_'-fields of a result name, with the set at field `first`
      and the era after it: "None" when nothing follows, otherwise the next two fields joined
      with '_' (IndexError when fields are missing). */
  function CombinationFrom(name: seq<string>, first: nat): (r: Result<string>)
    ensures r.Ok? <==> |name| == first + 2 || |name| >= first + 4
    ensures r.Err? ==> r.error == IndexError
    ensures r.Ok? && |name| == first + 2 ==> r.value == JobKey(name[first], name[first + 1], "None")
    ensures r.Ok? && |name| >= first + 4 ==>
              r.value == JobKey(name[first], name[first + 1], name[first + 2] + "_" + name[first + 3])
  {
    if |name| < first + 2 then Err(IndexError)
    else if |name| == first + 2 then Ok(JobKey(name[first], name[first + 1], "None"))
    else if |name| == first + 3 then Err(IndexError)
    else Ok(JobKey(name[first], name[first + 1], name[first + 2] + "_" + name[first + 3]))
  }

  /** The '_'-fields of `f.split('.')[0].split('/')[1]` (IndexError without a '/'). */
  function ResultFields(f: string): (r: Result<seq<string>>)
    ensures r.Ok? <==> |Split(Split(f, '.')[0], '/')| >= 2
    ensures r.Err? ==> r.error == IndexError
  {
    match Field(Split(f, '.')[0], '/', 1)
    case Err(e) => Err(e)
    case Ok(name) => Ok(Split(name, '_'))
  }

  /** The parse of an existing result name as the selection driver writes it: set at field 1,
      era at field 2. */
  function ParseResultNameAsWritten(f: string): (r: Result<string>)
    ensures ResultFields(f).Err? ==> r == Err(ResultFields(f).error)
    ensures ResultFields(f).Ok? ==> r == CombinationFrom(ResultFields(f).value, 1)
  {
    match ResultFields(f)
    case Err(e) => Err(e)
    case Ok(name) => CombinationFrom(name, 1)
  }

  /** The parse the driver's already-performed test needs for the names the selection writes,
      whose field 1 is the HT cut: set at field 2, era at field 3. */
  function ParseResultName(f: string): (r: Result<string>)
    ensures ResultFields(f).Err? ==> r == Err(ResultFields(f).error)
    ensures ResultFields(f).Ok? ==> r == CombinationFrom(ResultFields(f).value, 2)
  {
    match ResultFields(f)
    case Err(e) => Err(e)
    case Ok(name) => CombinationFrom(name, 2)
  }

  /** A variation the job list uses: "None", or two plain words joined by '_' ("JES_up"). */
  predicate JobVariation(variation: string, a: string, b: string)
  {
    variation == "None" || (Plain(a) && Plain(b) && variation == a + "_" + b)
  }

  /** The fields of `<dir>/<name>.<ext>` are the '_'-fields of `name` when neither `dir` nor
      `name` holds a '.' or a '/'. */
  lemma ResultFieldsOf(dir: string, name: string, ext: string)
    requires '.' !in dir && '/' !in dir && '.' !in name && '/' !in name
    ensures ResultFields(dir + ['/'] + name + ['.'] + ext) == Ok(Split(name, '_'))
  {
    var stem := dir + ['/'] + name;
    assert '.' !in stem;
    SplitFirst(stem, ext, '.');
    SplitFirst(dir, name, '/');
    SplitNoSeparator(name, '/');
  }

  /** The '_'-fields of `<p>_<h>_<s>_<tail>`. */
  lemma NameFields(p: string, h: string, s: string, tail: string)
    requires '_' !in p && '_' !in h && '_' !in s
    ensures Split(p + ['_'] + (h + ['_'] + (s + ['_'] + tail)), '_') == [p, h, s] + Split(tail, '_')
  {
    SplitFirst(p, h + ['_'] + (s + ['_'] + tail), '_');
    SplitFirst(h, s + ['_'] + tail, '_');
    SplitFirst(s, tail, '_');
  }

  /** Regrouping the pieces of an output name around its separators. */
  lemma Regroup(d: string, p: string, h0: string, HT: string, s: string, t: string, e: string)
    ensures (d + ['/'] + p + ['_'] + h0) + HT + "_" + s + "_" + t + (['.'] + e) ==
            d + ['/'] + (p + ['_'] + ((h0 + HT) + ['_'] + (s + ['_'] + t))) + ['.'] + e
  {
    var lhs := (d + ['/'] + p + ['_'] + h0) + HT + "_" + s + "_" + t + (['.'] + e);
    var rhs := d + ['/'] + (p + ['_'] + ((h0 + HT) + ['_'] + (s + ['_'] + t))) + ['.'] + e;
    assert |lhs| == |rhs|;
    forall i | 0 <= i < |lhs|
      ensures lhs[i] == rhs[i]
    {
    }
  }

  /** The output name (no top cut) as `rootfiles/<name>.root` with its '_'-separated name. */
  lemma OutputNameShape(HT: string, setname: string, era: string, variation: string)
    ensures SelectionScripts.OutputName(HT, setname, "", era, variation) ==
            "rootfiles" + ['/'] + ("THselection" + ['_'] + (("HT" + HT) + ['_'] +
              (setname + ['_'] + (era + SelectionScripts.VariationTag(variation))))) + ['.'] + "root"
  {
    var f := SelectionScripts.OutputName(HT, setname, "", era, variation);
    var p, dir, ext := "THselection", "rootfiles", "root";
    var tail := era + SelectionScripts.VariationTag(variation);
    OutputNameLiterals();
    assert f == (dir + ['/'] + p + ['_'] + "HT") + HT + "_" + setname + "_" + tail + (['.'] + ext);
    Regroup(dir, p, "HT", HT, setname, tail, ext);
  }

  /** The fixed prefix and suffix of an output name, split at their separators. */
  lemma OutputNameLiterals()
    ensures "rootfiles/THselection_HT" == "rootfiles" + ['/'] + "THselection" + ['_'] + "HT"
    ensures ".root" == ['.'] + "root"
  {
  }

  /** The '_'-fields of `<era><variation tag>`. */
  lemma TailFields(era: string, variation: string, a: string, b: string)
    requires Plain(era) && JobVariation(variation, a, b)
    ensures var tail := era + SelectionScripts.VariationTag(variation);
      '.' !in tail && '/' !in tail &&
      Split(tail, '_') == if variation == "None" then [era] else [era, a, b]
  {
    if variation == "None" {
      assert era + SelectionScripts.VariationTag(variation) == era;
      SplitNoSeparator(era, '_');
    } else {
      assert era + SelectionScripts.VariationTag(variation) == era + ['_'] + (a + ['_'] + b);
      SplitFirst(era, a + ['_'] + b, '_');
      SplitFirst(a, b, '_');
      SplitNoSeparator(b, '_');
    }
  }

  /** The '_'-fields of the selection output name (no top cut), in terms of those of its tail. */
  lemma OutputFieldsSplit(HT: string, setname: string, era: string, variation: string)
    requires Plain(HT) && Plain(setname)
    requires var tail := era + SelectionScripts.VariationTag(variation); '.' !in tail && '/' !in tail
    ensures ResultFields(SelectionScripts.OutputName(HT, setname, "", era, variation)) ==
            Ok(["THselection", "HT" + HT, setname] + Split(era + SelectionScripts.VariationTag(variation), '_'))
  {
    var p, h := "THselection", "HT" + HT;
    var tail := era + SelectionScripts.VariationTag(variation);
    var name := p + ['_'] + (h + ['_'] + (setname + ['_'] + tail));
    OutputNameShape(HT, setname, era, variation);
    PlainLiteral(HT);
    NotInName(p, h, setname, tail, '.');
    NotInName(p, h, setname, tail, '/');
    ResultFieldsOf("rootfiles", name, "root");
    NameFields(p, h, setname, tail);
  }

  /** The fixed parts of the output name have no separator, and neither has "HT" + HT. */
  lemma PlainLiteral(HT: string)
    requires Plain(HT)
    ensures Plain("THselection") && Plain("HT" + HT) && Plain("rootfiles")
  {
  }

  /** A character other than '_' that none of the fields holds is not in the joined name. */
  lemma NotInName(p: string, h: string, s: string, tail: string, c: char)
    requires c != '_' && c !in p && c !in h && c !in s && c !in tail
    ensures c !in p + ['_'] + (h + ['_'] + (s + ['_'] + tail))
  {
  }

  /** The '_'-fields of the selection output name (no top cut). */
  lemma OutputFields(HT: string, setname: string, era: string, variation: string, a: string, b: string)
    requires Plain(HT) && Plain(setname) && Plain(era) && JobVariation(variation, a, b)
    ensures var f := SelectionScripts.OutputName(HT, setname, "", era, variation);
      ResultFields(f) == Ok(if variation == "None" then ["THselection", "HT" + HT, setname, era]
                            else ["THselection", "HT" + HT, setname, era, a, b])
  {
    TailFields(era, variation, a, b);
    OutputFieldsSplit(HT, setname, era, variation);
    if variation == "None" {
      assert ["THselection", "HT" + HT, setname] + [era] == ["THselection", "HT" + HT, setname, era];
    } else {
      assert ["THselection", "HT" + HT, setname] + [era, a, b] == ["THselection", "HT" + HT, setname, era, a, b];
    }
  }

  /** Reading a selection output back gives the key of the job that wrote it. */
  lemma ParseResultNameRoundTrip(HT: string, setname: string, era: string, variation: string, a: string, b: string)
    requires Plain(HT) && Plain(setname) && Plain(era) && JobVariation(variation, a, b)
    ensures ParseResultName(SelectionScripts.OutputName(HT, setname, "", era, variation)) == Ok(JobKey(setname, era, variation))
  {
    OutputFields(HT, setname, era, variation, a, b);
  }

  /** As written, the parse reads the HT field as the set, the set as the era, and the era and
      the variation kind as the variation: a nominal output raises IndexError, and a varied one
      reads back as `HT<cut> <set> <era>_<a>`. */
  lemma ParseResultNameAsWrittenShifts(HT: string, setname: string, era: string, variation: string, a: string, b: string)
    requires Plain(HT) && Plain(setname) && Plain(era) && JobVariation(variation, a, b)
    ensures var r := ParseResultNameAsWritten(SelectionScripts.OutputName(HT, setname, "", era, variation));
      if variation == "None" then r == Err(IndexError) else r == Ok(JobKey("HT" + HT, setname, era + "_" + a))
  {
    OutputFields(HT, setname, era, variation, a, b);
  }

  /** The output of the job "TprimeB-1800 16 JES_up" reads back as "HT750 TprimeB-1800 16_JES",
      so the driver never recognises a job that has already been performed. */
  lemma ParseResultNameAsWrittenMisreads()
    ensures ParseResultNameAsWritten(SelectionScripts.OutputName("750", "TprimeB-1800", "", "16", "JES_up")) ==
            Ok(JobKey("HT750", "TprimeB-1800", "16_JES"))
    ensures JobKey("TprimeB-1800", "16", "JES_up") != JobKey("HT750", "TprimeB-1800", "16_JES")
  {
    var HT, name, era, a, b := "750", "TprimeB-1800", "16", "JES", "up";
    assert a + "_" + b == "JES_up";
    assert Plain(HT) && Plain(name) && Plain(era) && Plain(a) && Plain(b);
    ParseResultNameAsWrittenShifts(HT, name, era, "JES_up", a, b);
    assert "HT" + HT == "HT750" && era + "_" + a == "16_JES";
    var written := JobKey("HT750", "TprimeB-1800", "16_JES");
    assert written[0] == 'H';
  }
}
