/** The configuration rules of the two analysis classes (the fully hadronic and the semileptonic
    one, whose constructors and `GetXsecScale` are the same): the set name and data flag derived
    from the input file name, the luminosity-weighted cross-section scale, the diphoton/top-tag
    regions of `ApplySTagTopTag`, and the working point of the ttbar control region. */
module AnalysisClass {
  import opened Wrappers
  import opened Strings
  import XbbSF

  /** The set name: '_'-field 0 of the file's basename for a '.txt' list of files, field 1 for a
      ROOT file (which raises IndexError when the basename has no '_'). */
  function SetName(inputfile: string): (r: Result<string>)
    ensures r.Ok? <==> EndsWith(inputfile, ".txt") || |Split(LastField(inputfile, '/'), '_')| >= 2
    ensures r.Err? ==> r.error == IndexError
    ensures r.Ok? ==> '_' !in r.value && '/' !in r.value
  {
    var base := LastField(inputfile, '/');
    SplitFieldsWithout(base, '_', '/');
    if EndsWith(inputfile, ".txt") then Ok(Split(base, '_')[0]) else Field(base, '_', 1)
  }

  /** A '.txt' list named `<name>_<rest>.txt`, in any directory, is the set `<name>`. */
  lemma SetNameOfList(dir: string, name: string, rest: string)
    requires '/' !in name && '/' !in rest && '_' !in name
    ensures SetName(dir + "/" + name + "_" + rest + ".txt") == Ok(name)
  {
    var base := name + "_" + (rest + ".txt");
    assert dir + "/" + name + "_" + rest + ".txt" == dir + ['/'] + base;
    LastFieldAfter(dir, base, '/');
    SplitFirst(name, rest + ".txt", '_');
  }

  /** A ROOT file named `<prefix>_<name>_<rest>.root`, in any directory, is the set `<name>`. */
  lemma SetNameOfRootFile(dir: string, prefix: string, name: string, rest: string)
    requires '/' !in prefix && '/' !in name && '/' !in rest && '_' !in prefix && '_' !in name
    ensures SetName(dir + "/" + prefix + "_" + name + "_" + rest + ".root") == Ok(name)
  {
    var f := dir + "/" + prefix + "_" + name + "_" + rest + ".root";
    var base := prefix + "_" + (name + "_" + (rest + ".root"));
    assert f == dir + ['/'] + base;
    LastFieldAfter(dir, base, '/');
    SplitFirst(prefix, name + "_" + (rest + ".root"), '_');
    SplitFirst(name, rest + ".root", '_');
    RootNotTxt(dir + "/" + prefix + "_" + name + "_" + rest);
  }

  /** A '.root' name does not end in ".txt". */
  lemma RootNotTxt(s: string)
    ensures !EndsWith(s + ".root", ".txt")
  {
    var f := s + ".root";
    assert f[|f| - 4..] == ".root"[1..];
  }

  /** `isData`: "Data" occurs anywhere in the input file name. */
  predicate IsData(inputfile: string)
  {
    Contains(inputfile, "Data")
  }

  /** Data sets named like `SingleMuonDataB_18` or `DataC_17`, in any directory, are data. */
  lemma DataSetIsData(dir: string, before: string, after: string)
    ensures IsData(dir + "/" + before + "Data" + after)
  {
    assert dir + "/" + before + "Data" + after == (dir + "/" + before) + "Data" + after;
    ContainsInfix(dir + "/" + before, "Data", after);
  }

  /** The luminosity key: "lumi16" for the APV part of 2016, "lumi<year>" otherwise. */
  function LumiKey(year: string): (k: string)
    ensures |k| >= 4 && k[..4] == "lumi"
    ensures Contains(year, "APV") ==> k == "lumi16"
    ensures !Contains(year, "APV") ==> k[4..] == year
  {
    if Contains(year, "APV") then "lumi16" else "lumi" + year
  }

  /** The two halves of 2016 share one luminosity entry; other years have one each. */
  lemma LumiKeyShared(year1: string, year2: string)
    requires !Contains(year1, "APV") && !Contains(year2, "APV")
    ensures LumiKey("16APV") == LumiKey("16")
    ensures LumiKey(year1) == LumiKey(year2) <==> year1 == year2
  {
    ContainsInfix("16", "APV", "");
    assert "16" + "APV" + "" == "16APV";
    assert LumiKey(year1)[4..] == year1 && LumiKey(year2)[4..] == year2;
    assert 'A' in "APV" && 'A' !in "16";
    if Contains("16", "APV") {
      ContainsHasChars("16", "APV", 'A');
    }
  }

  /** `GetXsecScale`: lumi * xsec / genEventSumw.  The lookups run first, so a missing luminosity
      key and then a missing cross section raise KeyError; a zero sum of weights raises ValueError. */
  function GetXsecScale(config: map<string, real>, xsecs: map<string, real>, setname: string, year: string,
                        genEventSumw: real): (r: Result<real>)
    ensures r.Ok? <==> LumiKey(year) in config && setname in xsecs && genEventSumw != 0.0
    ensures LumiKey(year) !in config ==> r == Err(KeyError(LumiKey(year)))
    ensures LumiKey(year) in config && setname !in xsecs ==> r == Err(KeyError(setname))
    ensures LumiKey(year) in config && setname in xsecs && genEventSumw == 0.0 ==>
              r == Err(ValueError(setname + " " + year + ": genEventSumw is 0"))
    ensures r.Ok? ==> r.value * genEventSumw == config[LumiKey(year)] * xsecs[setname]
  {
    var key := LumiKey(year);
    if key !in config then Err(KeyError(key))
    else if setname !in xsecs then Err(KeyError(setname))
    else if genEventSumw == 0.0 then Err(ValueError(setname + " " + year + ": genEventSumw is 0"))
    else Ok(config[key] * xsecs[setname] / genEventSumw)
  }

  /** Doubling the sum of weights halves the scale. */
  lemma XsecScaleInverse(config: map<string, real>, xsecs: map<string, real>, setname: string, year: string,
                         genEventSumw: real)
    requires GetXsecScale(config, xsecs, setname, year, genEventSumw).Ok?
    ensures GetXsecScale(config, xsecs, setname, year, 2.0 * genEventSumw).Ok?
    ensures GetXsecScale(config, xsecs, setname, year, 2.0 * genEventSumw).value * 2.0 ==
            GetXsecScale(config, xsecs, setname, year, genEventSumw).value
  {
    var s1 := GetXsecScale(config, xsecs, setname, year, genEventSumw).value;
    var s2 := GetXsecScale(config, xsecs, setname, year, 2.0 * genEventSumw).value;
    assert s2 * (2.0 * genEventSumw) == s1 * genEventSumw;
    assert (s2 * 2.0 - s1) * genEventSumw == 0.0;
  }

  /** The region argument of `ApplySTagTopTag`, which asserts it is "SR" or "CR". */
  datatype Region = SR | CR

  function ParseRegion(SRorCR: string): (r: Result<Region>)
    ensures r.Ok? <==> SRorCR == "SR" || SRorCR == "CR"
    ensures r.Err? ==> r.error == AssertionError
    ensures r == Ok(SR) <==> SRorCR == "SR"
  {
    if SRorCR == "SR" then Ok(SR) else if SRorCR == "CR" then Ok(CR) else Err(AssertionError)
  }

  /** Both candidates' scores strictly above the working point. */
  predicate BothAbove(s0: real, s1: real, wp: real)
  {
    s0 > wp && s1 > wp
  }

  /** One candidate strictly above the working point and the other strictly below. */
  predicate OneAbove(s0: real, s1: real, wp: real)
  {
    (s0 > wp && s1 < wp) || (s1 > wp && s0 < wp)
  }

  /** Whether an event enters the (pass, fail) selections of `ApplySTagTopTag`: in the SR both
      top candidates pass the top working point, in the CR exactly one does; "pass" then asks
      both diphoton scores above their working point and "fail" exactly one. */
  function STagTopTag(SRorCR: string, top: (real, real), topWP: real, sTag: (real, real), sWP: real)
    : (r: Result<(bool, bool)>)
    ensures r.Ok? <==> SRorCR == "SR" || SRorCR == "CR"
    ensures r.Ok? ==> !(r.value.0 && r.value.1)
    ensures r.Ok? ==> (r.value.0 ==> BothAbove(sTag.0, sTag.1, sWP)) && (r.value.1 ==> OneAbove(sTag.0, sTag.1, sWP))
    ensures r.Ok? && (r.value.0 || r.value.1) ==>
              if SRorCR == "SR" then BothAbove(top.0, top.1, topWP) else OneAbove(top.0, top.1, topWP)
  {
    match ParseRegion(SRorCR)
    case Err(e) => Err(e)
    case Ok(region) =>
      var jets := if region == SR then BothAbove(top.0, top.1, topWP) else OneAbove(top.0, top.1, topWP);
      Ok((BothAbove(sTag.0, sTag.1, sWP) && jets, OneAbove(sTag.0, sTag.1, sWP) && jets))
  }

  /** An event in one of the SR selections is in neither CR selection, and vice versa. */
  lemma SignalAndControlDisjoint(top: (real, real), topWP: real, sTag: (real, real), sWP: real)
    ensures var sr, cr := STagTopTag("SR", top, topWP, sTag, sWP).value, STagTopTag("CR", top, topWP, sTag, sWP).value;
      !((sr.0 || sr.1) && (cr.0 || cr.1))
  {
  }

  /** A score equal to its working point puts the event in no selection of either region. */
  lemma ScoreAtWorkingPoint(SRorCR: string, top: (real, real), topWP: real, sTag: (real, real), sWP: real)
    requires SRorCR == "SR" || SRorCR == "CR"
    requires top.0 == topWP || top.1 == topWP || sTag.0 == sWP || sTag.1 == sWP
    ensures var r := STagTopTag(SRorCR, top, topWP, sTag, sWP).value; !r.0 && !r.1
  {
  }

  /** With no score at a working point, an event with at least one candidate above each working
      point is in exactly one of the four selections. */
  lemma STagTopTagCovers(top: (real, real), topWP: real, sTag: (real, real), sWP: real)
    requires top.0 != topWP && top.1 != topWP && sTag.0 != sWP && sTag.1 != sWP
    requires (top.0 > topWP || top.1 > topWP) && (sTag.0 > sWP || sTag.1 > sWP)
    ensures var sr, cr := STagTopTag("SR", top, topWP, sTag, sWP).value, STagTopTag("CR", top, topWP, sTag, sWP).value;
      (if sr.0 then 1 else 0) + (if sr.1 then 1 else 0) + (if cr.0 then 1 else 0) + (if cr.1 then 1 else 0) == 1
  {
  }

  /** The deepAK8 MD top-tag working point of `ApplyTopTag_ttbarCR`, loose (0.5%) or tight (0.1%
      mistag rate): the 2016 value for any year containing "16", the 2017 value for exactly
      "17", and the 2018 value for every other year. */
  function TtbarCRWorkingPoint(year: string, loose: bool): (wp: real)
    ensures Contains(year, "16") ==> wp == if loose then 0.632 else 0.889
    ensures !Contains(year, "16") && year == "17" ==> wp == if loose then 0.554 else 0.863
    ensures !Contains(year, "16") && year != "17" ==> wp == if loose then 0.685 else 0.92
  {
    if Contains(year, "16") then (if loose then 0.632 else 0.889)
    else if year == "17" then (if loose then 0.554 else 0.863)
    else (if loose then 0.685 else 0.92)
  }

  /** In every year the loose working point is below the tight one, and both are in (0, 1). */
  lemma LooseBelowTight(year: string)
    ensures 0.0 < TtbarCRWorkingPoint(year, true) < TtbarCRWorkingPoint(year, false) < 1.0
  {
  }

  /** Both halves of 2016 get the 2016 point.  The year is matched by equality only for 2017, so
      the four-digit spelling "2017" falls through to the 2018 values. */
  lemma TtbarCRYears(loose: bool)
    ensures TtbarCRWorkingPoint("16APV", loose) == TtbarCRWorkingPoint("16", loose)
    ensures TtbarCRWorkingPoint("2017", loose) == TtbarCRWorkingPoint("18", loose) != TtbarCRWorkingPoint("17", loose)
  {
    ContainsInfix("", "16", "APV");
    ContainsInfix("", "16", "");
    assert "" + "16" + "APV" == "16APV" && "" + "16" + "" == "16";
    assert '6' in "16" && '6' !in "2017" && '6' !in "17" && '6' !in "18";
    if Contains("2017", "16") { ContainsHasChars("2017", "16", '6'); }
    if Contains("17", "16") { ContainsHasChars("17", "16", '6'); }
    if Contains("18", "16") { ContainsHasChars("18", "16", '6'); }
  }

  /** The (fail, pass) selections of `ApplyTopTag_ttbarCR` for one event.  The fail selection is
      cut on top of the SR-fail selection of the Higgs candidate; the pass selection is cut from
      the node saved before that, so it does not require the Higgs candidate to fail. */
  function TtbarCR(higgsFails: bool, topScore: real, wp: real): (r: (bool, bool))
    ensures r.0 <==> higgsFails && topScore < wp
    ensures r.1 <==> topScore > wp
    ensures !(r.0 && r.1)
    ensures topScore == wp ==> !r.0 && !r.1
  {
    (higgsFails && topScore < wp, topScore > wp)
  }

  /** The SR-fail condition of the Higgs candidate: its score below 0.8, or, for signal, the
      migrated tag category 0. */
  function HiggsFails(signal: bool, higgsScore: real, newTagCat: int): (f: bool)
    ensures !signal ==> (f <==> higgsScore < 0.8)
    ensures signal ==> (f <==> newTagCat == 0)
  {
    if signal then newTagCat == 0 else higgsScore < 0.8
  }

  /** For a signal jet whose category was not migrated, i.e. the category `createTag` gives under
      the working points {0.8, 0.98} the selection hands to the Xbb handler, the signal cut
      `NewTagCats==0` fails exactly the jets the background cut `Higgs < 0.8` fails, except at
      the two working points themselves: a score of exactly 0.8 or 0.98 is category 0, so the
      signal form fails it, while the background form does not. */
  lemma HiggsFailsForms(score: real)
    ensures HiggsFails(true, 0.0, XbbSF.WPCat(score, 0.8, 0.98)) == HiggsFails(false, score, 0)
      <==> score != 0.8 && score != 0.98
  {
  }
}
