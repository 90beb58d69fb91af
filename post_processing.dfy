/** What the drivers do around the selection: the `hadd` commands that stitch sub-samples
    together, the histogram dictionary a comparison plot reads, the plotting driver's job list
    and its optimise flag. */
module PostProcessing {
  import opened Wrappers
  import opened Strings
  import opened JobNames
  import opened JobPlanning

  const Years: seq<string> := ["16", "17", "18"]

  /** The two drivers whose `CombineCommonSets` differ only in the groups they accept. */
  datatype Driver = SelectionDriver | PlotterDriver

  /** One `hadd -f <target> <sources...>` command. */
  datatype Hadd = Hadd(target: string, sources: seq<string>)

  /** `rootfiles/TH<selection|studies>_<set><modstr>_<year><suffix>.root`. */
  function SelectionFile(studies: bool, setname: string, modstr: string, year: string, suffix: string): (f: string)
    ensures |f| == |setname| + |modstr| + |year| + |suffix| + (if studies then 26 else 28)
  {
    "rootfiles/TH" + (if studies then "studies" else "selection") + "_" + setname + modstr + "_" + year + suffix + ".root"
  }

  function CombinableGroups(d: Driver): seq<string>
  {
    if d == SelectionDriver then ["QCD", "ttbar", "W", "Z"] else ["QCD", "ttbar"]
  }

  function GroupMessage(d: Driver): string
  {
    if d == SelectionDriver then "Can only combine QCD or ttbar or W/Z" else "Can only combine QCD or ttbar"
  }

  /** The letter of a vector-boson group: "W" for "W", "Z" for anything else. */
  function Boson(group: string): string
  {
    if group == "W" then "W" else "Z"
  }

  /** The set a group is stitched into. */
  function Stitched(group: string): string
  {
    if group == "ttbar" || group == "QCD" then group else Boson(group) + "Jets"
  }

  /** The sub-samples a group is stitched from. */
  function Parts(group: string): seq<string>
  {
    if group == "ttbar" then ["ttbar-allhad", "ttbar-semilep"]
    else if group == "QCD" then ["QCDHT700", "QCDHT1000", "QCDHT1500", "QCDHT2000"]
    else [Boson(group) + "JetsHT400", Boson(group) + "JetsHT600", Boson(group) + "JetsHT800"]
  }

  /** Every sub-sample name is longer than the name of the set it is stitched into. */
  lemma PartsLonger(group: string, i: nat)
    requires i < |Parts(group)|
    ensures |Parts(group)[i]| > |Stitched(group)|
  {
  }

  /** The file-name suffixes stitched per year: nominal only for QCD and in studies mode, else
      nominal and `_<kind>_<shift>` for the eight varied names. */
  function Suffixes(group: string, studies: bool): (sfx: seq<string>)
    ensures |sfx| == if group == "QCD" || studies then 1 else 9
    ensures sfx[0] == ""
  {
    [""] + if group == "QCD" || studies then [] else seq(8, i requires 0 <= i < 8 => "_" + JmeVariation(i))
  }

  lemma SuffixAt(group: string, studies: bool, a: nat, b: nat)
    requires group != "QCD" && !studies && a < 4 && b < 2
    ensures Suffixes(group, studies)[1 + 2 * a + b] == "_" + (JmeKinds[a] + "_" + Shifts[b])
  {
    var i := 2 * a + b;
    assert i / 2 == a && i % 2 == b;
    assert Suffixes(group, studies)[1 + i] == "_" + JmeVariation(i);
  }

  /** The command stitching one group for one year and suffix. */
  function Stitch(studies: bool, group: string, modstr: string, year: string, suffix: string): Hadd
  {
    var parts := Parts(group);
    Hadd(SelectionFile(studies, Stitched(group), modstr, year, suffix),
         seq(|parts|, i requires 0 <= i < |parts| => SelectionFile(studies, parts[i], modstr, year, suffix)))
  }

  /** `hadd -f` never lists its target among its sources. */
  predicate Safe(h: Hadd)
  {
    h.target !in h.sources
  }

  lemma StitchSafe(studies: bool, group: string, modstr: string, year: string, suffix: string)
    ensures Safe(Stitch(studies, group, modstr, year, suffix))
  {
    var h := Stitch(studies, group, modstr, year, suffix);
    forall i | 0 <= i < |h.sources|
      ensures h.sources[i] != h.target
    {
      PartsLonger(group, i);
    }
  }

  function YearHadds(group: string, studies: bool, modstr: string, year: string): seq<Hadd>
  {
    var sfx := Suffixes(group, studies);
    seq(|sfx|, i requires 0 <= i < |sfx| => Stitch(studies, group, modstr, year, sfx[i]))
  }

  function HaddsOver(group: string, studies: bool, modstr: string, years: seq<string>): seq<Hadd>
    decreases |years|
  {
    if years == [] then []
    else HaddsOver(group, studies, modstr, years[..|years| - 1]) + YearHadds(group, studies, modstr, years[|years| - 1])
  }

  /** The commands of `CombineCommonSets`, or the ValueError for a group the driver does not
      stitch. */
  function CommonSetHadds(d: Driver, group: string, studies: bool, modstr: string): (r: Result<seq<Hadd>>)
    ensures r.Err? <==> group !in CombinableGroups(d)
    ensures r.Err? ==> r.error == ValueError(GroupMessage(d))
  {
    if group !in CombinableGroups(d) then Err(ValueError(GroupMessage(d)))
    else Ok(HaddsOver(group, studies, modstr, Years))
  }

  lemma {:induction false} HaddsOverFacts(group: string, studies: bool, modstr: string, years: seq<string>)
    ensures |HaddsOver(group, studies, modstr, years)| == |years| * |Suffixes(group, studies)|
    ensures forall h :: h in HaddsOver(group, studies, modstr, years) ==> Safe(h)
    decreases |years|
  {
    if years != [] {
      var y := years[|years| - 1];
      HaddsOverFacts(group, studies, modstr, years[..|years| - 1]);
      var sfx := Suffixes(group, studies);
      forall i | 0 <= i < |sfx|
        ensures Safe(YearHadds(group, studies, modstr, y)[i])
      {
        StitchSafe(studies, group, modstr, y, sfx[i]);
      }
    }
  }

  /** Three commands (one per year) for QCD and in studies mode, otherwise 27 (nine per year);
      and no command reads the file it writes. */
  lemma CommonSetHaddsShape(d: Driver, group: string, studies: bool, modstr: string)
    requires CommonSetHadds(d, group, studies, modstr).Ok?
    ensures |CommonSetHadds(d, group, studies, modstr).value| == if group == "QCD" || studies then 3 else 27
    ensures forall h :: h in CommonSetHadds(d, group, studies, modstr).value ==> Safe(h)
  {
    HaddsOverFacts(group, studies, modstr, Years);
  }

  /** The two drivers issue the same commands for QCD and ttbar; only the selection driver
      stitches W and Z. */
  lemma DriversAgree(group: string, studies: bool, modstr: string)
    ensures group == "QCD" || group == "ttbar" ==>
      CommonSetHadds(SelectionDriver, group, studies, modstr) == CommonSetHadds(PlotterDriver, group, studies, modstr)
    ensures group == "W" || group == "Z" ==>
      CommonSetHadds(SelectionDriver, group, studies, modstr).Ok? && CommonSetHadds(PlotterDriver, group, studies, modstr).Err?
  {
  }

  /** The commands of one year: the nominal stitch, then, for ttbar and W/Z outside studies mode,
      one per kind and shift. */
  method StitchYear(group: string, studies: bool, modstr: string, year: string) returns (cmds: seq<Hadd>)
    ensures cmds == YearHadds(group, studies, modstr, year)
  {
    ghost var all := YearHadds(group, studies, modstr, year);
    cmds := [Stitch(studies, group, modstr, year, "")];
    assert all[..1] == cmds;
    if group != "QCD" && !studies {
      for a := 0 to |JmeKinds|
        invariant cmds == all[..1 + 2 * a]
      {
        for b := 0 to |Shifts|
          invariant cmds == all[..1 + 2 * a + b]
        {
          var suffix := "_" + (JmeKinds[a] + "_" + Shifts[b]);
          YearHaddsStep(group, studies, modstr, year, a, b);
          cmds := cmds + [Stitch(studies, group, modstr, year, suffix)];
        }
      }
    }
    assert all[..|all|] == all;
  }

  /** The command for kind `a` and shift `b` extends the year's commands before it by one. */
  lemma YearHaddsStep(group: string, studies: bool, modstr: string, year: string, a: nat, b: nat)
    requires group != "QCD" && !studies && a < 4 && b < 2
    ensures var all, n := YearHadds(group, studies, modstr, year), 1 + 2 * a + b;
      n < |all| && all[..n + 1] == all[..n] + [Stitch(studies, group, modstr, year, "_" + (JmeKinds[a] + "_" + Shifts[b]))]
  {
    var all, n := YearHadds(group, studies, modstr, year), 1 + 2 * a + b;
    SuffixAt(group, studies, a, b);
    PrefixSnoc(all, n);
  }

  /** `CombineCommonSets` of the selection and plotting drivers. */
  method CombineCommonSets(d: Driver, group: string, studies: bool, modstr: string) returns (r: Result<seq<Hadd>>)
    ensures r == CommonSetHadds(d, group, studies, modstr)
  {
    if group !in CombinableGroups(d) {
      return Err(ValueError(GroupMessage(d)));
    }
    var cmds: seq<Hadd> := [];
    for y := 0 to |Years|
      invariant cmds == HaddsOver(group, studies, modstr, Years[..y])
    {
      assert Years[..y + 1][..y] == Years[..y];
      var yearCmds := StitchYear(group, studies, modstr, Years[y]);
      cmds := cmds + yearCmds;
    }
    assert Years[..|Years|] == Years;
    return Ok(cmds);
  }

  /** `rootfiles/leadMassStudies_<set>_<year>.root`. */
  function LeadMassFile(setname: string, year: string): (f: string)
    ensures |f| == |setname| + |year| + 32
  {
    "rootfiles/leadMassStudies_" + setname + "_" + year + ".root"
  }

  /** The leading-jet study stitches ttbar and QCD once per year and ignores any other group. */
  function LeadMassYear(group: string, year: string): seq<Hadd>
  {
    if group == "ttbar" || group == "QCD" then
      var parts := Parts(group);
      [Hadd(LeadMassFile(group, year), seq(|parts|, i requires 0 <= i < |parts| => LeadMassFile(parts[i], year)))]
    else []
  }

  function LeadMassHadds(group: string, years: seq<string>): seq<Hadd>
    decreases |years|
  {
    if years == [] then [] else LeadMassHadds(group, years[..|years| - 1]) + LeadMassYear(group, years[|years| - 1])
  }

  lemma {:induction false} LeadMassFacts(group: string, years: seq<string>)
    ensures |LeadMassHadds(group, years)| == if group == "ttbar" || group == "QCD" then |years| else 0
    ensures forall h :: h in LeadMassHadds(group, years) ==> Safe(h)
    decreases |years|
  {
    if years != [] {
      var y := years[|years| - 1];
      LeadMassFacts(group, years[..|years| - 1]);
      if group == "ttbar" || group == "QCD" {
        var h := LeadMassYear(group, y)[0];
        forall i | 0 <= i < |h.sources|
          ensures h.sources[i] != h.target
        {
          PartsLonger(group, i);
        }
      }
    }
  }

  /** Exactly one command per year for ttbar and QCD, none for any other group, and no command
      reads the file it writes. */
  lemma LeadMassShape(group: string)
    ensures |LeadMassHadds(group, Years)| == if group == "ttbar" || group == "QCD" then 3 else 0
    ensures forall h :: h in LeadMassHadds(group, Years) ==> Safe(h)
  {
    LeadMassFacts(group, Years);
  }

  /** `CombineCommonSets` of the leading-jet study. */
  method CombineLeadMassSets(group: string) returns (cmds: seq<Hadd>)
    ensures cmds == LeadMassHadds(group, Years)
  {
    cmds := [];
    for y := 0 to |Years|
      invariant cmds == LeadMassHadds(group, Years[..y])
    {
      assert Years[..y + 1][..y] == Years[..y];
      var year := Years[y];
      ghost var want := LeadMassYear(group, year);
      if group == "ttbar" {
        cmds := cmds + [Hadd(LeadMassFile("ttbar", year),
                             [LeadMassFile("ttbar-allhad", year), LeadMassFile("ttbar-semilep", year)])];
        assert want[0].sources == [LeadMassFile("ttbar-allhad", year), LeadMassFile("ttbar-semilep", year)];
      } else if group == "QCD" {
        cmds := cmds + [Hadd(LeadMassFile("QCD", year),
                             [LeadMassFile("QCDHT700", year), LeadMassFile("QCDHT1000", year),
                              LeadMassFile("QCDHT1500", year), LeadMassFile("QCDHT2000", year)])];
        assert want[0].sources == [LeadMassFile("QCDHT700", year), LeadMassFile("QCDHT1000", year),
                                   LeadMassFile("QCDHT1500", year), LeadMassFile("QCDHT2000", year)];
      }
    }
    assert Years[..|Years|] == Years;
  }
}
