/** `JMEvariationStr` of the analysis classes: the two brace-delimited lists of jet-energy and
    jet-mass calibration columns, with the column of the requested variation substituted for the
    nominal one it belongs to. */
module JmeVariations {
  import opened Strings

  const BaseCalibs: seq<string> := ["Dijet_JES_nom", "Dijet_JER_nom", "Dijet_JMS_nom", "Dijet_JMR_nom"]

  /** The variation's type: the text before its first '_' (all of it when there is none). */
  function VariationType(variation: string): (t: string)
    ensures t <= variation && '_' !in t
    ensures |t| == |variation| || variation[|t|] == '_'
  {
    SplitHead(variation, '_');
    Split(variation, '_')[0]
  }

  /** The column written for calibration `c`: the varied column when the variation's type occurs
      in `c`, the nominal column otherwise. */
  function Entry(c: string, variation: string): string
  {
    if Contains(c, VariationType(variation)) then "Dijet_" + variation else c
  }

  /** The first branch of the loop: a mass calibration, for anything but the top candidate. */
  predicate MassOnly(p: string, c: string)
  {
    Contains(c, "JM") && p != "Top"
  }

  /** The entries the loop appends to the pT list, in the order of `cs`. */
  function PtList(p: string, variation: string, cs: seq<string>): seq<string>
  {
    if cs == [] then []
    else
      var c := cs[|cs| - 1];
      PtList(p, variation, cs[..|cs| - 1]) + (if !MassOnly(p, c) && Contains(c, "JE") then [Entry(c, variation)] else [])
  }

  /** The entries the loop appends to the mass list, in the order of `cs`. */
  function MassList(p: string, variation: string, cs: seq<string>): seq<string>
  {
    if cs == [] then []
    else
      var c := cs[|cs| - 1];
      MassList(p, variation, cs[..|cs| - 1]) + (if MassOnly(p, c) || Contains(c, "JE") then [Entry(c, variation)] else [])
  }

  /** One more calibration appends at most one entry to each list. */
  lemma ListsSnoc(p: string, variation: string, cs: seq<string>, c: string)
    ensures PtList(p, variation, cs + [c]) ==
      PtList(p, variation, cs) + (if !MassOnly(p, c) && Contains(c, "JE") then [Entry(c, variation)] else [])
    ensures MassList(p, variation, cs + [c]) ==
      MassList(p, variation, cs) + (if MassOnly(p, c) || Contains(c, "JE") then [Entry(c, variation)] else [])
  {
    assert (cs + [c])[..|cs|] == cs;
  }

  /** Every entry followed by a comma, concatenated: the text the loop accumulates. */
  function Listed(es: seq<string>): (r: string)
    ensures |es| >= 1 ==> |r| >= 1 && r[|r| - 1] == ','
  {
    if es == [] then [] else Listed(es[..|es| - 1]) + es[|es| - 1] + [',']
  }

  lemma ListedSnoc(es: seq<string>, e: string)
    ensures Listed(es + [e]) == Listed(es) + e + [',']
  {
    assert (es + [e])[..|es|] == es;
  }

  /** Dropping the last comma of a non-empty listing leaves the comma-join. */
  lemma {:induction false} ListedIsJoin(es: seq<string>)
    requires |es| >= 1
    ensures var l := Listed(es); l[..|l| - 1] == Join(es, ',')
    decreases |es|
  {
    if |es| == 1 {
      assert Listed(es) == es[0] + [','];
    } else {
      var init := es[..|es| - 1];
      ListedIsJoin(init);
      JoinSnoc(init, es[|es| - 1], ',');
      assert init + [es[|es| - 1]] == es;
      var l := Listed(init);
      assert Listed(es) == l + es[|es| - 1] + [','];
      assert l == l[..|l| - 1] + [','];
    }
  }

  /** Joining one more entry appends a separator and the entry. */
  lemma {:induction false} JoinSnoc(es: seq<string>, e: string, c: char)
    requires |es| >= 1
    ensures Join(es + [e], c) == Join(es, c) + [c] + e
    decreases |es|
  {
    if |es| == 1 {
      assert (es + [e])[1..] == [e];
    } else {
      JoinSnoc(es[1..], e, c);
      assert (es + [e])[1..] == es[1..] + [e];
    }
  }

  /** Python `s[:-1]`, which leaves an empty string empty. */
  function DropLast(s: string): (r: string)
    ensures |s| >= 1 ==> r == s[..|s| - 1]
    ensures |s| == 0 ==> r == s
  {
    if |s| == 0 then s else s[..|s| - 1]
  }

  /** '{' + the comma-joined entries + '}'. */
  function Braced(es: seq<string>): string
    requires |es| >= 1
  {
    "{" + Join(es, ',') + "}"
  }

  /** The pT list: the JES then the JER column. */
  function PtEntries(variation: string): (es: seq<string>)
    ensures |es| == 2
  {
    [Entry(BaseCalibs[0], variation), Entry(BaseCalibs[1], variation)]
  }

  /** The mass list: the pT list for the top candidate, otherwise JES, JER, JMS, JMR. */
  function MassEntries(p: string, variation: string): (es: seq<string>)
    ensures p == "Top" ==> es == PtEntries(variation)
    ensures p != "Top" ==> |es| == 4 && es[..2] == PtEntries(variation)
  {
    if p == "Top" then PtEntries(variation)
    else [Entry(BaseCalibs[0], variation), Entry(BaseCalibs[1], variation),
          Entry(BaseCalibs[2], variation), Entry(BaseCalibs[3], variation)]
  }

  /** An energy calibration named `c`: it contains "JE" at position 6 and has no 'M'. */
  lemma EnergyCalib(c: string)
    requires c == BaseCalibs[0] || c == BaseCalibs[1]
    ensures Contains(c, "JE") && !Contains(c, "JM")
  {
    assert "JE" <= c[6..];
    ContainsAt(c, "JE", 6);
    assert 'M' !in c;
    if Contains(c, "JM") {
      ContainsHasChars(c, "JM", 'M');
    }
  }

  /** A mass calibration named `c`: it contains "JM" at position 6 and has no 'E'. */
  lemma MassCalib(c: string)
    requires c == BaseCalibs[2] || c == BaseCalibs[3]
    ensures !Contains(c, "JE") && Contains(c, "JM")
  {
    assert "JM" <= c[6..];
    ContainsAt(c, "JM", 6);
    assert 'E' !in c;
    if Contains(c, "JE") {
      ContainsHasChars(c, "JE", 'E');
    }
  }

  /** Over the four base calibrations the loop's lists are exactly the pT and mass entries. */
  lemma ListsOverBaseCalibs(p: string, variation: string)
    ensures PtList(p, variation, BaseCalibs) == PtEntries(variation)
    ensures MassList(p, variation, BaseCalibs) == MassEntries(p, variation)
  {
    EnergyCalib(BaseCalibs[0]);
    EnergyCalib(BaseCalibs[1]);
    MassCalib(BaseCalibs[2]);
    MassCalib(BaseCalibs[3]);
    ListsOverCalibs(p, variation, BaseCalibs);
  }

  /** Over two energy calibrations followed by two mass calibrations, the pT list holds the
      energy entries and the mass list all four (only the energy ones for the top candidate). */
  lemma ListsOverCalibs(p: string, variation: string, cs: seq<string>)
    requires |cs| == 4
    requires Contains(cs[0], "JE") && !Contains(cs[0], "JM") && Contains(cs[1], "JE") && !Contains(cs[1], "JM")
    requires !Contains(cs[2], "JE") && Contains(cs[2], "JM") && !Contains(cs[3], "JE") && Contains(cs[3], "JM")
    ensures PtList(p, variation, cs) == [Entry(cs[0], variation), Entry(cs[1], variation)]
    ensures MassList(p, variation, cs) ==
      if p == "Top" then [Entry(cs[0], variation), Entry(cs[1], variation)]
      else [Entry(cs[0], variation), Entry(cs[1], variation), Entry(cs[2], variation), Entry(cs[3], variation)]
  {
    ListsSnoc(p, variation, [], cs[0]);
    ListsSnoc(p, variation, [cs[0]], cs[1]);
    ListsSnoc(p, variation, [cs[0], cs[1]], cs[2]);
    ListsSnoc(p, variation, [cs[0], cs[1], cs[2]], cs[3]);
    assert [] + [cs[0]] == [cs[0]] && [cs[0]] + [cs[1]] == [cs[0], cs[1]];
    assert [cs[0], cs[1]] + [cs[2]] == [cs[0], cs[1], cs[2]] && [cs[0], cs[1], cs[2]] + [cs[3]] == cs;
  }

  /** The text the loop holds after appending the entries `es`: an opening brace, then each entry
      followed by a comma. */
  function Open(es: seq<string>): string
  {
    "{" + Listed(es)
  }

  lemma OpenSnoc(es: seq<string>, e: string)
    ensures Open(es + [e]) == Open(es) + e + ","
  {
    ListedSnoc(es, e);
  }

  /** The text after one more calibration: its entry and a comma appended to each list it joins. */
  lemma {:induction false} OpenStep(p: string, variation: string, cs: seq<string>, i: nat)
    requires i < |cs|
    ensures var c := cs[i];
      if !MassOnly(p, c) && Contains(c, "JE") then
        Open(PtList(p, variation, cs[..i + 1])) == Open(PtList(p, variation, cs[..i])) + Entry(c, variation) + ","
      else Open(PtList(p, variation, cs[..i + 1])) == Open(PtList(p, variation, cs[..i]))
    ensures var c := cs[i];
      if MassOnly(p, c) || Contains(c, "JE") then
        Open(MassList(p, variation, cs[..i + 1])) == Open(MassList(p, variation, cs[..i])) + Entry(c, variation) + ","
      else Open(MassList(p, variation, cs[..i + 1])) == Open(MassList(p, variation, cs[..i]))
  {
    var c, e := cs[i], Entry(cs[i], variation);
    var pl, ml := PtList(p, variation, cs[..i]), MassList(p, variation, cs[..i]);
    assert cs[..i + 1] == cs[..i] + [c];
    ListsSnoc(p, variation, cs[..i], c);
    if !MassOnly(p, c) && Contains(c, "JE") {
      OpenSnoc(pl, e);
    } else {
      assert pl + [] == pl;
    }
    if MassOnly(p, c) || Contains(c, "JE") {
      OpenSnoc(ml, e);
    } else {
      assert ml + [] == ml;
    }
  }

  /** Dropping the trailing comma of the loop's text and closing the brace gives the braced
      comma-join. */
  lemma ListedBraced(es: seq<string>)
    requires |es| >= 1
    ensures DropLast(Open(es)) + "}" == Braced(es)
  {
    ListedIsJoin(es);
    var l := Listed(es);
    assert ("{" + l)[..|"{" + l| - 1] == "{" + l[..|l| - 1];
  }

  /** `JMEvariationStr(p, variation)`. */
  method JMEvariationStr(p: string, variation: string) returns (pt: string, mass: string)
    ensures pt == Braced(PtEntries(variation))
    ensures mass == Braced(MassEntries(p, variation))
    ensures p == "Top" ==> mass == pt
  {
    var ptVect := "{";
    var massVect := "{";
    for i := 0 to |BaseCalibs|
      invariant ptVect == Open(PtList(p, variation, BaseCalibs[..i]))
      invariant massVect == Open(MassList(p, variation, BaseCalibs[..i]))
    {
      var c := BaseCalibs[i];
      var e := if Contains(c, VariationType(variation)) then "Dijet_" + variation else c;
      OpenStep(p, variation, BaseCalibs, i);
      if Contains(c, "JM") && p != "Top" {
        massVect := massVect + e + ",";
      } else if Contains(c, "JE") {
        ptVect := ptVect + e + ",";
        massVect := massVect + e + ",";
      }
    }
    assert BaseCalibs[..|BaseCalibs|] == BaseCalibs;
    ListsOverBaseCalibs(p, variation);
    ListedBraced(PtEntries(variation));
    ListedBraced(MassEntries(p, variation));
    pt := DropLast(ptVect) + "}";
    mass := DropLast(massVect) + "}";
  }

  /** The lists can be read back: splitting the text between the braces at ',' gives the entries,
      as long as the variation name has no comma. */
  lemma BracedRoundTrip(p: string, variation: string)
    requires ',' !in variation
    ensures var s := Braced(PtEntries(variation)); Split(s[1..|s| - 1], ',') == PtEntries(variation)
    ensures var s := Braced(MassEntries(p, variation)); Split(s[1..|s| - 1], ',') == MassEntries(p, variation)
  {
    var pe, me := PtEntries(variation), MassEntries(p, variation);
    assert forall i :: 0 <= i < |me| ==> me[i] in BaseCalibs || me[i] == "Dijet_" + variation;
    assert forall i :: 0 <= i < |pe| ==> pe[i] in BaseCalibs || pe[i] == "Dijet_" + variation;
    SplitJoin(pe, ',');
    SplitJoin(me, ',');
    var s := Braced(pe);
    assert s[1..|s| - 1] == Join(pe, ',');
    var t := Braced(me);
    assert t[1..|t| - 1] == Join(me, ',');
  }

  /** A calibration lacking some character of the variation's type keeps its nominal column. */
  lemma EntryKept(c: string, variation: string, ch: char)
    requires ch in VariationType(variation) && ch !in c
    ensures Entry(c, variation) == c
  {
    if Contains(c, VariationType(variation)) {
      ContainsHasChars(c, VariationType(variation), ch);
    }
  }

  /** The variation "None" substitutes nothing: the lists are the nominal columns. */
  lemma NoneIsNominal(p: string)
    requires p != "Top"
    ensures PtEntries("None") == ["Dijet_JES_nom", "Dijet_JER_nom"]
    ensures MassEntries(p, "None") == ["Dijet_JES_nom", "Dijet_JER_nom", "Dijet_JMS_nom", "Dijet_JMR_nom"]
  {
    SplitNoSeparator("None", '_');
    assert VariationType("None") == "None";
    assert 'N' in "None";
    EntryKept(BaseCalibs[0], "None", 'N');
    EntryKept(BaseCalibs[1], "None", 'N');
    EntryKept(BaseCalibs[2], "None", 'N');
    EntryKept(BaseCalibs[3], "None", 'N');
  }

  /** A JES variation ("JES_up", "JES_down") replaces the JES column only. */
  lemma JesVariation(p: string, variation: string)
    requires p != "Top" && VariationType(variation) == "JES"
    ensures PtEntries(variation) == ["Dijet_" + variation, "Dijet_JER_nom"]
    ensures MassEntries(p, variation) == ["Dijet_" + variation, "Dijet_JER_nom", "Dijet_JMS_nom", "Dijet_JMR_nom"]
  {
    JesReplaced(variation);
    JesKeeps(variation, 1, 'S');
    JesKeeps(variation, 2, 'E');
    JesKeeps(variation, 3, 'E');
  }

  /** Under a JES variation the JES column is the varied one. */
  lemma JesReplaced(variation: string)
    requires VariationType(variation) == "JES"
    ensures Entry(BaseCalibs[0], variation) == "Dijet_" + variation
  {
    assert "JES" <= BaseCalibs[0][6..];
    ContainsAt(BaseCalibs[0], "JES", 6);
  }

  /** Under a JES variation a base calibration lacking one of the letters of "JES" is kept. */
  lemma JesKeeps(variation: string, k: nat, ch: char)
    requires VariationType(variation) == "JES" && k < |BaseCalibs|
    requires ch in "JES" && ch !in BaseCalibs[k]
    ensures Entry(BaseCalibs[k], variation) == BaseCalibs[k]
  {
    EntryKept(BaseCalibs[k], variation, ch);
  }

  /** The type of "JES_up" is "JES". */
  lemma JesUpType()
    ensures VariationType("JES_up") == "JES"
  {
    SplitNoSeparator("JES", '_');
    SplitNoSeparator("up", '_');
    SplitConcat("JES", "up", '_');
    assert "JES" + ['_'] + "up" == "JES_up";
  }
}
