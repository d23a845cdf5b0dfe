/**
 * The BNCC skill selector of the tool page (pages/ToolPage.tsx): the skill
 * list a (discipline, grade) pair offers, the checkbox that ticks and
 * unticks a skill, and the post-filter that turns the model's suggested
 * lines into a selection.
 *
 * A selection holds `Option<string>` entries: when the model suggests
 * nothing usable the page stores `[suggested[0]]`, which is `[undefined]`
 * for an empty suggestion, and that value travels on to the prompts.
 */
module Skills {
  import opened Wrappers
  import Lists
  import Catalog

  type Selection = seq<Option<string>>

  /**
   * `BNCC_DATA[discipline]?.[grade] || []`, over a given catalogue: the
   * slice when both keys are present (an array is never falsy), else empty.
   */
  function Lookup(data: Catalog.Catalogue, discipline: string, grade: string): (skills: seq<string>)
    ensures forall s :: s in skills <==> discipline in data && grade in data[discipline] && s in data[discipline][grade]
    ensures !(discipline in data && grade in data[discipline]) ==> skills == []
  {
    if discipline in data && grade in data[discipline] then data[discipline][grade] else []
  }

  /**
   * Over the BNCC catalogue a lookup lists each skill once, and it is empty
   * exactly when the discipline or the grade has no entry.
   */
  lemma {:induction false} LookupCatalogue(discipline: string, grade: string)
    ensures Catalog.Distinct(Lookup(Catalog.BnccData, discipline, grade))
    ensures Lookup(Catalog.BnccData, discipline, grade) == [] <==>
      !(discipline in Catalog.BnccData && grade in Catalog.BnccData[discipline])
  {
    Catalog.SlicesNonEmptyAndDistinct();
    if discipline in Catalog.BnccData && grade in Catalog.BnccData[discipline] {
      assert Catalog.GoodSlices(Catalog.BnccData[discipline]);
    }
  }

  /** A lookup for a selectable discipline the catalogue does not list is empty, whatever the grade. */
  lemma {:induction false} LookupWithoutEntry(discipline: string, grade: string)
    requires discipline in ["Artes", "Educação Física", "Inglês", "Ensino Religioso"]
    ensures Lookup(Catalog.BnccData, discipline, grade) == []
  {
    Catalog.DisciplinesWithoutSkills(discipline);
  }

  /** A grade outside the school grades offers nothing, whatever the discipline. */
  lemma {:induction false} LookupUnknownGrade(discipline: string, grade: string)
    requires grade !in Catalog.AnosEscolaridade
    ensures Lookup(Catalog.BnccData, discipline, grade) == []
  {
    Catalog.GradeKeysAreGrades();
    if discipline in Catalog.BnccData {
      assert Catalog.GradesKnown(Catalog.BnccData[discipline]);
    }
  }

  /** Ticking a checkbox: the skill goes to the end of the selection. */
  function Tick(selection: Selection, skill: string): (r: Selection)
    ensures |r| == |selection| + 1 && r[..|selection|] == selection && r[|selection|] == Some(skill)
  {
    selection + [Some(skill)]
  }

  /** Unticking a checkbox: `selection.filter(s => s !== skill)`. */
  function Untick(selection: Selection, skill: string): (r: Selection)
    ensures Some(skill) !in r && |r| <= |selection|
    ensures forall e :: e in r <==> e in selection && e != Some(skill)
    ensures forall e :: e != Some(skill) ==> multiset(r)[e] == multiset(selection)[e]
    decreases |selection|
  {
    if selection == [] then []
    else
      var rest := Untick(selection[1..], skill);
      assert selection == [selection[0]] + selection[1..];
      if selection[0] == Some(skill) then rest else [selection[0]] + rest
  }

  /** The checkbox handler: its new checked state decides between ticking and unticking. */
  function OnCheckbox(selection: Selection, skill: string, checked: bool): (r: Selection)
    ensures checked ==> Some(skill) in r && |r| == |selection| + 1
    ensures !checked ==> Some(skill) !in r && |r| <= |selection|
  {
    if checked then Tick(selection, skill) else Untick(selection, skill)
  }

  /** Unticking works piece by piece: it keeps the other entries in their order. */
  lemma {:induction false} UntickConcat(a: Selection, b: Selection, skill: string)
    ensures Untick(a + b, skill) == Untick(a, skill) + Untick(b, skill)
    decreases |a|
  {
    if a == [] {
      assert a + b == b;
    } else {
      assert (a + b)[1..] == a[1..] + b;
      UntickConcat(a[1..], b, skill);
    }
  }

  /** Unticking a skill that is not selected changes nothing. */
  lemma {:induction false} UntickAbsent(selection: Selection, skill: string)
    requires Some(skill) !in selection
    ensures Untick(selection, skill) == selection
    decreases |selection|
  {
    if selection != [] {
      UntickAbsent(selection[1..], skill);
    }
  }

  /** Ticking an unselected skill and unticking it again gives the selection back. */
  lemma {:induction false} TickThenUntick(selection: Selection, skill: string)
    requires Some(skill) !in selection
    ensures Untick(Tick(selection, skill), skill) == selection
  {
    UntickConcat(selection, [Some(skill)], skill);
    UntickAbsent(selection, skill);
    assert Untick([Some(skill)], skill) == [];
  }

  /** `s => available.includes(s)`. */
  function Offered(available: seq<string>): string -> bool {
    s => s in available
  }

  /** `suggested.filter(s => available.includes(s))`. */
  function Matching(suggested: seq<string>, available: seq<string>): (r: seq<string>)
    ensures |r| <= |suggested|
    ensures forall s :: s in r <==> s in suggested && s in available
  {
    assert forall s :: s in suggested && s in available ==> s in Lists.Filter(Offered(available), suggested) by {
      forall s | s in suggested && s in available {
        Lists.FilterMembership(Offered(available), suggested, s);
      }
    }
    Lists.Filter(Offered(available), suggested)
  }

  /** Matching keeps the suggested order: it works piece by piece. */
  lemma {:induction false} MatchingConcat(a: seq<string>, b: seq<string>, available: seq<string>)
    ensures Matching(a + b, available) == Matching(a, available) + Matching(b, available)
  {
    Lists.FilterConcat(Offered(available), a, b);
  }

  function Wrap(s: string): Option<string> {
    Some(s)
  }

  /**
   * `filtered.length > 0 ? filtered : [suggested[0]]`: the matching lines,
   * or else the first suggested line whatever it is, or `undefined` when
   * nothing was suggested.
   */
  function FinalSelection(suggested: seq<string>, available: seq<string>): (selection: Selection)
    ensures |selection| >= 1
    ensures (exists s :: s in suggested && s in available) ==>
      |selection| == |Matching(suggested, available)| &&
      forall i :: 0 <= i < |selection| ==> selection[i] == Some(Matching(suggested, available)[i])
    ensures (forall s :: s in suggested ==> s !in available) ==>
      selection == [if suggested == [] then None else Some(suggested[0])]
  {
    var filtered := Matching(suggested, available);
    if |filtered| > 0 then
      assert filtered[0] in filtered;
      Lists.Map(Wrap, filtered)
    else [if suggested == [] then None else Some(suggested[0])]
  }

  /** When anything matches, every selected skill is one that was both suggested and offered. */
  lemma {:induction false} FinalSelectionOffered(suggested: seq<string>, available: seq<string>, e: Option<string>)
    requires exists s :: s in suggested && s in available
    requires e in FinalSelection(suggested, available)
    ensures e.Some? && e.value in suggested && e.value in available
  {
    var sel := FinalSelection(suggested, available);
    var i :| 0 <= i < |sel| && sel[i] == e;
    assert Matching(suggested, available)[i] in Matching(suggested, available);
  }

  /** The worked cases: an intersection in suggested order, a fallback line, and an empty reply. */
  lemma {:induction false} FinalSelectionExamples()
    ensures FinalSelection(["B", "X", "C"], ["A", "B", "C"]) == [Some("B"), Some("C")]
    ensures FinalSelection(["nenhuma"], ["A", "B"]) == [Some("nenhuma")]
    ensures FinalSelection([], ["A", "B"]) == [None]
  {
    assert Matching(["B", "X", "C"], ["A", "B", "C"]) == ["B", "C"] by {
      assert ["B", "X", "C"][1..] == ["X", "C"];
      assert ["X", "C"][1..] == ["C"];
    }
    assert "B" in ["A", "B", "C"];
  }
}
