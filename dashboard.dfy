/**
 * The dashboard's catalog filter: three selectors (semester, subject, material type),
 * each either the wildcard "all" or one value, combined by conjunction.
 */
module Dashboard {
  import opened Types
  import opened JsStrings
  import opened Sequences
  import opened Constants

  /** The selector value that disables a filter; every selector starts with it. */
  const All := "all"

  /** The three selector values; `semester` is the string the semester selector holds. */
  datatype Selection = Selection(semester: string, subject: string, kind: string)

  /** The selection the dashboard starts with. */
  const Unfiltered := Selection(All, All, All)

  predicate SemesterMatches(semester: string, m: Material) {
    semester == All || NumberToString(m.semester) == semester
  }

  predicate SubjectMatches(subject: string, m: Material) {
    subject == All || m.subject == subject
  }

  predicate KindMatches(kind: string, m: Material) {
    kind == All || m.kind.Label() == kind
  }

  /** The filter callback: all three selectors accept `m`. */
  predicate Matches(sel: Selection, m: Material) {
    SemesterMatches(sel.semester, m) && SubjectMatches(sel.subject, m) && KindMatches(sel.kind, m)
  }

  /** `catalog.filter(...)` with the callback `Matches(sel, _)`. */
  function FilterMaterials(catalog: seq<Material>, sel: Selection): (r: seq<Material>)
    ensures |r| <= |catalog|
  {
    if catalog == [] then []
    else if Matches(sel, catalog[0]) then [catalog[0]] + FilterMaterials(catalog[1..], sel)
    else FilterMaterials(catalog[1..], sel)
  }

  /** Soundness and completeness: an entry is shown exactly when it is in the catalog and matches. */
  lemma {:induction false} FilterMembership(catalog: seq<Material>, sel: Selection, m: Material)
    ensures m in FilterMaterials(catalog, sel) <==> m in catalog && Matches(sel, m)
  {
    if catalog != [] {
      FilterMembership(catalog[1..], sel, m);
      assert catalog == [catalog[0]] + catalog[1..];
    }
  }

  /** Every shown entry satisfies each selector that is not "all". */
  lemma FilterSound(catalog: seq<Material>, sel: Selection, m: Material)
    requires m in FilterMaterials(catalog, sel)
    ensures sel.semester != All ==> NumberToString(m.semester) == sel.semester
    ensures sel.subject != All ==> m.subject == sel.subject
    ensures sel.kind != All ==> m.kind.Label() == sel.kind
  {
    FilterMembership(catalog, sel, m);
  }

  /** With every selector on "all" the whole catalog is shown, in its own order. */
  lemma {:induction false} UnfilteredShowsCatalog(catalog: seq<Material>)
    ensures FilterMaterials(catalog, Unfiltered) == catalog
  {
    if catalog != [] {
      UnfilteredShowsCatalog(catalog[1..]);
    }
  }

  /** The result is a subsequence of the catalog: the filter only drops entries and never reorders them. */
  lemma {:induction false} FilterIsSubsequence(catalog: seq<Material>, sel: Selection)
    ensures IsSubsequence(FilterMaterials(catalog, sel), catalog)
  {
    if catalog != [] {
      FilterIsSubsequence(catalog[1..], sel);
    }
  }

  /** Each matching entry appears as often as in the catalog, every other not at all: no duplicates are introduced. */
  lemma {:induction false} FilterCounts(catalog: seq<Material>, sel: Selection, m: Material)
    ensures multiset(FilterMaterials(catalog, sel))[m] == if Matches(sel, m) then multiset(catalog)[m] else 0
  {
    if catalog != [] {
      FilterCounts(catalog[1..], sel, m);
      assert catalog == [catalog[0]] + catalog[1..];
    }
  }

  /** Filtering distributes over concatenation. */
  lemma {:induction false} FilterConcat(a: seq<Material>, b: seq<Material>, sel: Selection)
    ensures FilterMaterials(a + b, sel) == FilterMaterials(a, sel) + FilterMaterials(b, sel)
  {
    if a == [] {
      assert a + b == b;
    } else {
      var ab := a + b;
      assert ab[0] == a[0] && ab[1..] == a[1..] + b;
      FilterConcat(a[1..], b, sel);
      if Matches(sel, a[0]) {
        calc {
          FilterMaterials(ab, sel);
          [a[0]] + FilterMaterials(a[1..] + b, sel);
          [a[0]] + (FilterMaterials(a[1..], sel) + FilterMaterials(b, sel));
          ([a[0]] + FilterMaterials(a[1..], sel)) + FilterMaterials(b, sel);
        }
      }
    }
  }

  /** `wide` accepts everything `narrow` accepts: each of its selectors is "all" or the same as `narrow`'s. */
  predicate Widens(narrow: Selection, wide: Selection) {
    && (wide.semester == All || wide.semester == narrow.semester)
    && (wide.subject == All || wide.subject == narrow.subject)
    && (wide.kind == All || wide.kind == narrow.kind)
  }

  /** Monotonicity: widening the selection yields a result that contains the old one as a subsequence. */
  lemma {:induction false} FilterMonotone(catalog: seq<Material>, narrow: Selection, wide: Selection)
    requires Widens(narrow, wide)
    ensures IsSubsequence(FilterMaterials(catalog, narrow), FilterMaterials(catalog, wide))
  {
    if catalog != [] {
      FilterMonotone(catalog[1..], narrow, wide);
      var rest := FilterMaterials(catalog[1..], wide);
      if !Matches(narrow, catalog[0]) && Matches(wide, catalog[0]) {
        assert ([catalog[0]] + rest)[1..] == rest;
      }
    }
  }

  /** Setting any one selector back to "all" shows every entry shown before (and possibly more). */
  lemma ResetOneSelectorWidens(catalog: seq<Material>, sel: Selection, m: Material)
    requires m in FilterMaterials(catalog, sel)
    ensures m in FilterMaterials(catalog, sel.(semester := All))
    ensures m in FilterMaterials(catalog, sel.(subject := All))
    ensures m in FilterMaterials(catalog, sel.(kind := All))
  {
    FilterMembership(catalog, sel, m);
    FilterMembership(catalog, sel.(semester := All), m);
    FilterMembership(catalog, sel.(subject := All), m);
    FilterMembership(catalog, sel.(kind := All), m);
  }

  /** Widening the selection never shows an entry fewer times than before. */
  lemma WideningKeepsCounts(catalog: seq<Material>, narrow: Selection, wide: Selection)
    requires Widens(narrow, wide)
    ensures multiset(FilterMaterials(catalog, narrow)) <= multiset(FilterMaterials(catalog, wide))
  {
    FilterMonotone(catalog, narrow, wide);
    SubsequenceMultiset(FilterMaterials(catalog, narrow), FilterMaterials(catalog, wide));
  }

  /** Filtering twice is filtering once by a selection that accepts exactly what both accept. */
  lemma {:induction false} FilterTwice(catalog: seq<Material>, first: Selection, second: Selection, both: Selection)
    requires forall m :: Matches(both, m) <==> Matches(first, m) && Matches(second, m)
    ensures FilterMaterials(FilterMaterials(catalog, first), second) == FilterMaterials(catalog, both)
  {
    if catalog != [] {
      FilterTwice(catalog[1..], first, second, both);
      assert Matches(both, catalog[0]) <==> Matches(first, catalog[0]) && Matches(second, catalog[0]);
    }
  }

  function OnlySemester(semester: string): Selection { Selection(semester, All, All) }
  function OnlySubject(subject: string): Selection { Selection(All, subject, All) }
  function OnlyKind(kind: string): Selection { Selection(All, All, kind) }

  /** The three selectors are independent: the result is the three single-selector filters applied one after another, and as a set their intersection. */
  lemma FiltersIndependent(catalog: seq<Material>, sel: Selection)
    ensures FilterMaterials(catalog, sel)
         == FilterMaterials(FilterMaterials(FilterMaterials(catalog, OnlySemester(sel.semester)),
                                            OnlySubject(sel.subject)),
                            OnlyKind(sel.kind))
    ensures forall m :: m in FilterMaterials(catalog, sel) <==>
                          && m in FilterMaterials(catalog, OnlySemester(sel.semester))
                          && m in FilterMaterials(catalog, OnlySubject(sel.subject))
                          && m in FilterMaterials(catalog, OnlyKind(sel.kind))
  {
    var semSub := Selection(sel.semester, sel.subject, All);
    FilterTwice(catalog, OnlySemester(sel.semester), OnlySubject(sel.subject), semSub);
    FilterTwice(catalog, semSub, OnlyKind(sel.kind), sel);
    forall m
      ensures m in FilterMaterials(catalog, sel) <==>
                && m in FilterMaterials(catalog, OnlySemester(sel.semester))
                && m in FilterMaterials(catalog, OnlySubject(sel.subject))
                && m in FilterMaterials(catalog, OnlyKind(sel.kind))
    {
      FilterMembership(catalog, sel, m);
      FilterMembership(catalog, OnlySemester(sel.semester), m);
      FilterMembership(catalog, OnlySubject(sel.subject), m);
      FilterMembership(catalog, OnlyKind(sel.kind), m);
    }
  }

  /** Choosing semester `k` in the semester selector shows exactly the entries of semester `k`. */
  lemma SemesterSelectionExact(catalog: seq<Material>, k: int, m: Material)
    ensures m in FilterMaterials(catalog, OnlySemester(NumberToString(k))) <==> m in catalog && m.semester == k
  {
    FilterMembership(catalog, OnlySemester(NumberToString(k)), m);
    if m in FilterMaterials(catalog, OnlySemester(NumberToString(k))) {
      assert NumberToString(k) != All by {
        assert NumberToString(k)[0] == '-' || '0' <= NumberToString(k)[0] <= '9';
      }
      NumberToStringInjective(m.semester, k);
    }
  }

  /** Which shipped entries the "Semester 5" choice accepts. */
  lemma FifthSemesterMatches()
    ensures Matches(OnlySemester("5"), OsSyllabus) && Matches(OnlySemester("5"), DbmsQp2022)
    ensures !Matches(OnlySemester("5"), DsQp2023) && !Matches(OnlySemester("5"), AlgoNotesUnit1)
    ensures !Matches(OnlySemester("5"), CnNotesFull) && !Matches(OnlySemester("5"), SeQp2023Internals)
    ensures !Matches(OnlySemester("5"), DsNotesUnit2) && !Matches(OnlySemester("5"), AlgoQp2023)
  {
    assert NumberToString(3) == "3" && NumberToString(4) == "4";
    assert NumberToString(5) == "5" && NumberToString(6) == "6";
  }

  /** On the shipped catalog, "Semester 5" shows the OS syllabus and the DBMS paper, in catalog order. */
  lemma FifthSemesterOfCatalog()
    ensures FilterMaterials(Materials, OnlySemester("5")) == [OsSyllabus, DbmsQp2022]
  {
    var five := OnlySemester("5");
    FifthSemesterMatches();
    var front, back := [DsQp2023, AlgoNotesUnit1, OsSyllabus, DbmsQp2022],
                       [CnNotesFull, SeQp2023Internals, DsNotesUnit2, AlgoQp2023];
    assert Materials == front + back;
    FilterConcat(front, back, five);
    assert front == [DsQp2023, AlgoNotesUnit1] + [OsSyllabus, DbmsQp2022];
    FilterConcat([DsQp2023, AlgoNotesUnit1], [OsSyllabus, DbmsQp2022], five);
    assert back == [CnNotesFull, SeQp2023Internals] + [DsNotesUnit2, AlgoQp2023];
    FilterConcat([CnNotesFull, SeQp2023Internals], [DsNotesUnit2, AlgoQp2023], five);
  }

  /**
   * Every shipped entry can be reached through the selectors: its semester and subject are
   * among the options offered, and choosing those options and its type label shows it.
   */
  lemma EveryEntryHasItsOptions(m: Material)
    requires m in Materials
    ensures m.semester in Semesters && m.subject in Subjects
    ensures m in FilterMaterials(Materials, Selection(NumberToString(m.semester), m.subject, m.kind.Label()))
  {
    FilterMembership(Materials, Selection(NumberToString(m.semester), m.subject, m.kind.Label()), m);
  }
}
