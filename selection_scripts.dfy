/** The decisions the selection drivers make before handing work to the analysis classes: which
    set names are signal, which scale factor a systematic variation shifts, the arguments given to
    the scale-factor handlers, the name of the output file, and the tagger selections whose yields
    give the efficiencies (the Higgs driver, the diphoton driver and its data variant). */
module SelectionScripts {
  import opened Wrappers
  import opened Strings
  import opened Eras
  import AnalysisClass
  import TTModules

  /** The Higgs driver treats a set as signal when "Tprime" occurs in its name. */
  predicate IsHiggsSignal(setname: string)
  {
    Contains(setname, "Tprime")
  }

  /** The diphoton drivers treat a set as signal when "StoAA" occurs in its name. */
  predicate IsSaaSignal(setname: string)
  {
    Contains(setname, "StoAA")
  }

  /** Signal sets are named after the signal process with a mass point appended. */
  lemma SignalNames(mass: string)
    ensures IsHiggsSignal("TprimeB-" + mass)
    ensures IsSaaSignal("StoAA-" + mass)
  {
    ContainsInfix("", "Tprime", "B-" + mass);
    assert "" + "Tprime" + ("B-" + mass) == "TprimeB-" + mass;
    ContainsInfix("", "StoAA", "-" + mass);
    assert "" + "StoAA" + ("-" + mass) == "StoAA-" + mass;
  }

  /** The variation codes given to the top-tag and the second tagger's scale factors: 0 nominal,
      1 up, 2 down. */
  datatype Codes = Codes(top: int, tagger: int)

  /** Both codes are handler variations, and at most one scale factor is shifted. */
  predicate ValidCodes(c: Codes)
  {
    0 <= c.top < 3 && 0 <= c.tagger < 3 && (c.top == 0 || c.tagger == 0)
  }

  /** The variation case split shared by the drivers; `tag` names the second tagger ("Xbb" or
      "Saa").  Any other variation (the jet-energy ones, "None") keeps both nominal. */
  function VariationCodes(variation: string, tag: string): (c: Codes)
    ensures ValidCodes(c)
    ensures c.top == 1 <==> variation == "PNetTop_up"
    ensures c.top == 2 <==> variation == "PNetTop_down"
    ensures c.tagger == 1 <==> variation != "PNetTop_up" && variation != "PNetTop_down" && variation == "PNet" + tag + "_up"
    ensures c.tagger == 2 <==> variation != "PNetTop_up" && variation != "PNetTop_down" && variation != "PNet" + tag + "_up" &&
                               variation == "PNet" + tag + "_down"
  {
    if variation == "PNetTop_up" then Codes(1, 0)
    else if variation == "PNetTop_down" then Codes(2, 0)
    else if variation == "PNet" + tag + "_up" then Codes(0, 1)
    else if variation == "PNet" + tag + "_down" then Codes(0, 2)
    else Codes(0, 0)
  }

  /** The codes of the Higgs driver, which binds them only for signal sets. */
  function HiggsCodes(setname: string, variation: string): (r: Option<Codes>)
    ensures r.Some? <==> IsHiggsSignal(setname)
    ensures r.Some? ==> ValidCodes(r.value)
  {
    if IsHiggsSignal(setname) then Some(VariationCodes(variation, "Xbb")) else None
  }

  /** The codes of the diphoton driver, which binds them only for signal sets. */
  function SaaCodes(setname: string, variation: string): (r: Option<Codes>)
    ensures r.Some? <==> IsSaaSignal(setname)
    ensures r.Some? ==> ValidCodes(r.value)
  {
    if IsSaaSignal(setname) then Some(VariationCodes(variation, "Saa")) else None
  }

  /** The codes of the data variant of the diphoton driver, which sets both to 0 first. */
  function SaaDataCodes(setname: string, variation: string): (c: Codes)
    ensures ValidCodes(c)
    ensures !IsSaaSignal(setname) ==> c == Codes(0, 0)
  {
    if IsSaaSignal(setname) then VariationCodes(variation, "Saa") else Codes(0, 0)
  }

  /** The named scale-factor variations map to exactly one shifted code each. */
  lemma NamedVariations(setname: string)
    requires IsHiggsSignal(setname) && IsSaaSignal(setname)
    ensures HiggsCodes(setname, "PNetTop_up") == Some(Codes(1, 0)) && HiggsCodes(setname, "PNetTop_down") == Some(Codes(2, 0))
    ensures HiggsCodes(setname, "PNetXbb_up") == Some(Codes(0, 1)) && HiggsCodes(setname, "PNetXbb_down") == Some(Codes(0, 2))
    ensures SaaCodes(setname, "PNetSaa_up") == Some(Codes(0, 1)) && SaaCodes(setname, "PNetSaa_down") == Some(Codes(0, 2))
    ensures HiggsCodes(setname, "JES_up") == Some(Codes(0, 0)) && HiggsCodes(setname, "PNetSaa_up") == Some(Codes(0, 0))
  {
    assert "PNet" + "Xbb" + "_up" == "PNetXbb_up" && "PNet" + "Xbb" + "_down" == "PNetXbb_down";
    assert "PNet" + "Saa" + "_up" == "PNetSaa_up" && "PNet" + "Saa" + "_down" == "PNetSaa_down";
  }

  /** Where both diphoton drivers bind the codes they agree; elsewhere only the data variant has
      codes, and they are nominal. */
  lemma SaaDriversAgree(setname: string, variation: string)
    ensures SaaCodes(setname, variation).Some? ==> SaaCodes(setname, variation) == Some(SaaDataCodes(setname, variation))
    ensures SaaCodes(setname, variation).None? ==> SaaDataCodes(setname, variation) == Codes(0, 0)
  {
  }

  /** The arguments of the Xbb scale-factor handler built by the Higgs driver's `applyScaleFactors`. */
  datatype XbbArgs = XbbArgs(name: string, wps: seq<real>, effs: seq<real>, year: string, variation: int, column: string)

  /** The working points {0.8, 0.98} are written into the handler whatever loose and tight points
      the caller passes; the year is "20" + era and the tagger column is the Higgs candidate's. */
  function XbbHandlerArgs(tagger: string, variation: int, SRorCR: string, effLoose: real, effTight: real,
                          wpLoose: real, wpTight: real, era: string): (a: XbbArgs)
    ensures a.wps == [0.8, 0.98] && a.effs == [effLoose, effTight] && a.variation == variation
    ensures a.year == "20" + era && a.column == "Higgs_" + tagger && a.name == "p_" + SRorCR
  {
    XbbArgs("p_" + SRorCR, [0.8, 0.98], [effLoose, effTight], "20" + era, variation, "Higgs_" + tagger)
  }

  /** The handler does not depend on the working points passed in (the driver passes 0.8 and
      0.95, while the efficiencies were measured at 0.8 and 0.98). */
  lemma XbbArgsIgnoreWorkingPoints(tagger: string, variation: int, SRorCR: string, effLoose: real, effTight: real,
                                   wpLoose1: real, wpTight1: real, wpLoose2: real, wpTight2: real, era: string)
    ensures XbbHandlerArgs(tagger, variation, SRorCR, effLoose, effTight, wpLoose1, wpTight1, era) ==
            XbbHandlerArgs(tagger, variation, SRorCR, effLoose, effTight, wpLoose2, wpTight2, era)
  {
  }

  /** The era names of the drivers select the intended scale-factor table once prefixed with "20". */
  lemma HandlerYearSelectsEra()
    ensures EraOf("20" + "16APV") == Era2016APV && EraOf("20" + "16") == Era2016
    ensures EraOf("20" + "17") == Era2017 && EraOf("20" + "18") == Era2018
  {
    assert "20" + "16APV" == "2016APV" && "20" + "16" == "2016" && "20" + "17" == "2017" && "20" + "18" == "2018";
  }

  /** The arguments the Higgs driver builds meet the handler constructor's conditions for every
      set it gives codes to. */
  lemma XbbArgsConstructible(setname: string, variation: string, SRorCR: string, effLoose: real, effTight: real,
                             wpLoose: real, wpTight: real, era: string)
    requires HiggsCodes(setname, variation).Some?
    ensures var a := XbbHandlerArgs("particleNetMD_HbbvsQCD", HiggsCodes(setname, variation).value.tagger, SRorCR,
                                    effLoose, effTight, wpLoose, wpTight, era);
      |a.wps| >= 2 && |a.effs| >= 2 && 0 <= a.variation < 3
  {
  }

  /** The arguments of the diphoton scale-factor handler built by the diphoton driver. */
  datatype SaaArgs = SaaArgs(name: string, wp: real, eff: real, year: string, variation: int, column: string)

  /** The working point 0 is written into the handler whatever `wp` the caller passes. */
  function SaaHandlerArgs(tagger: string, variation: int, SRorCR: string, PASSorFAIL: string, eff: real, wp: real,
                          era: string): (a: SaaArgs)
    ensures a.wp == 0.0 && a.eff == eff && a.variation == variation
    ensures a.year == "20" + era && a.column == "Diphoton_" + tagger && a.name == "p_" + SRorCR + "_" + PASSorFAIL
  {
    SaaArgs("p_" + SRorCR + "_" + PASSorFAIL, 0.0, eff, "20" + era, variation, "Diphoton_" + tagger)
  }

  lemma SaaArgsIgnoreWorkingPoint(tagger: string, variation: int, SRorCR: string, PASSorFAIL: string, eff: real,
                                  wp1: real, wp2: real, era: string)
    ensures SaaHandlerArgs(tagger, variation, SRorCR, PASSorFAIL, eff, wp1, era) ==
            SaaHandlerArgs(tagger, variation, SRorCR, PASSorFAIL, eff, wp2, era)
  {
  }

  /** The output file of both drivers:
      rootfiles/THselection_HT<HT>_<set>[_htag<topcut with '.' as 'p'>]_<era>[_<variation>].root,
      with the tag left out for an empty `topcut` and the variation left out for "None". */
  function OutputName(HT: string, setname: string, topcut: string, era: string, variation: string): string
  {
    "rootfiles/THselection_HT" + HT + "_" + setname + TopcutTag(topcut) + "_" + era + VariationTag(variation) + ".root"
  }

  function TopcutTag(topcut: string): (t: string)
    ensures topcut == "" ==> t == ""
    ensures topcut != "" ==> t == "_htag" + ReplaceChar(topcut, '.', 'p') && '.' !in t
  {
    if topcut == "" then "" else "_htag" + ReplaceChar(topcut, '.', 'p')
  }

  function VariationTag(variation: string): (t: string)
    ensures variation == "None" ==> t == ""
    ensures variation != "None" ==> t == "_" + variation
  {
    if variation == "None" then "" else "_" + variation
  }

  /** The variation can be read off the tail of the output name, so the runs of the nine
      variations of one set never overwrite each other. */
  lemma OutputNameSeparatesVariations(HT: string, setname: string, topcut: string, era: string, v1: string, v2: string)
    requires OutputName(HT, setname, topcut, era, v1) == OutputName(HT, setname, topcut, era, v2)
    ensures v1 == v2
  {
    var pre := "rootfiles/THselection_HT" + HT + "_" + setname + TopcutTag(topcut) + "_" + era;
    var n1, n2 := OutputName(HT, setname, topcut, era, v1), OutputName(HT, setname, topcut, era, v2);
    assert n1 == pre + (VariationTag(v1) + ".root");
    assert n2 == pre + (VariationTag(v2) + ".root");
    assert n1[|pre|..] == VariationTag(v1) + ".root";
    assert n2[|pre|..] == VariationTag(v2) + ".root";
    var t1, t2 := VariationTag(v1), VariationTag(v2);
    assert |t1| == |t2|;
    assert t1 == (t1 + ".root")[..|t1|] == (t2 + ".root")[..|t2|] == t2;
    if v1 != "None" && v2 != "None" {
      assert v1 == t1[1..] && v2 == t2[1..];
    }
  }

  /** The working-point selection of `getSaaEfficiencies` in the diphoton driver: "PASS" asks
      both photon scores above the point, anything else exactly one above and the other below. */
  function SaaEfficiencySelection(PASSorFAIL: string, d0: real, d1: real, wp: real): (b: bool)
    ensures PASSorFAIL == "PASS" ==> (b <==> AnalysisClass.BothAbove(d0, d1, wp))
    ensures PASSorFAIL != "PASS" ==> (b <==> AnalysisClass.OneAbove(d0, d1, wp))
  {
    if PASSorFAIL == "PASS" then AnalysisClass.BothAbove(d0, d1, wp) else AnalysisClass.OneAbove(d0, d1, wp)
  }

  /** The PASS and FAIL selections never share an event, and a score at the point is in neither. */
  lemma SaaEfficiencyDisjoint(other: string, d0: real, d1: real, wp: real)
    requires other != "PASS"
    ensures !(SaaEfficiencySelection("PASS", d0, d1, wp) && SaaEfficiencySelection(other, d0, d1, wp))
    ensures d0 == wp || d1 == wp ==> !SaaEfficiencySelection("PASS", d0, d1, wp) && !SaaEfficiencySelection(other, d0, d1, wp)
  {
  }

  /** The three photon selections of the data variant: both scores at or above the point, exactly
      one, or neither. */
  datatype PhotonSelections = PhotonSelections(pass: bool, fail: bool, failFail: bool)

  function PhotonCategories(d0: real, d1: real, wp: real): (p: PhotonSelections)
    ensures p.pass <==> d0 >= wp && d1 >= wp
    ensures p.fail <==> (d0 >= wp && d1 < wp) || (d1 >= wp && d0 < wp)
    ensures p.failFail <==> d0 < wp && d1 < wp
  {
    PhotonSelections(d0 >= wp && d1 >= wp, (d0 >= wp && d1 < wp) || (d1 >= wp && d0 < wp), d0 < wp && d1 < wp)
  }

  /** Every pair of photon scores is in exactly one of the three selections, and which one is the
      category `getDiPhotonCat` gives the pair (2 pass, 1 fail, 0 fail-fail). */
  lemma PhotonCategoriesPartition(d0: real, d1: real, wp: real)
    ensures var p := PhotonCategories(d0, d1, wp);
      (if p.pass then 1 else 0) + (if p.fail then 1 else 0) + (if p.failFail then 1 else 0) == 1
    ensures var p, c := PhotonCategories(d0, d1, wp), TTModules.GetDiPhotonCat([d0, d1], wp);
      (p.pass <==> c == 2) && (p.fail <==> c == 1) && (p.failFail <==> c == 0)
  {
  }

  /** The selections of the data variant's `getSaaEfficiencies` for one event: the region's top-tag
      condition (both candidates above the point for "SR", exactly one for anything else), and
      each photon selection conjoined with it. */
  function DataEfficiencySelections(SRorCR: string, top: (real, real), topWP: real, d: (real, real), sWP: real)
    : (r: (bool, PhotonSelections))
    ensures r.0 <==> if SRorCR == "SR" then AnalysisClass.BothAbove(top.0, top.1, topWP)
                     else AnalysisClass.OneAbove(top.0, top.1, topWP)
    ensures var p := PhotonCategories(d.0, d.1, sWP);
      r.1 == PhotonSelections(p.pass && r.0, p.fail && r.0, p.failFail && r.0)
  {
    var jets := if SRorCR == "SR" then AnalysisClass.BothAbove(top.0, top.1, topWP)
                else AnalysisClass.OneAbove(top.0, top.1, topWP);
    var p := PhotonCategories(d.0, d.1, sWP);
    (jets, PhotonSelections(p.pass && jets, p.fail && jets, p.failFail && jets))
  }

  /** Within a region the three selections split the region's events without overlap or gap, so
      the three fractions are taken of the same total; no event is in both regions. */
  lemma DataEfficiencyFractions(SRorCR: string, top: (real, real), topWP: real, d: (real, real), sWP: real)
    ensures var r := DataEfficiencySelections(SRorCR, top, topWP, d, sWP);
      (if r.1.pass then 1 else 0) + (if r.1.fail then 1 else 0) + (if r.1.failFail then 1 else 0) == (if r.0 then 1 else 0)
    ensures !(DataEfficiencySelections("SR", top, topWP, d, sWP).0 && DataEfficiencySelections("CR", top, topWP, d, sWP).0)
  {
    PhotonCategoriesPartition(d.0, d.1, sWP);
  }
}
