/** `Patients`: the dermatologist's patient list, filtered by search term
    and skin type and sorted by the chosen column. The page's collation
    (`localeCompare`) is a parameter `collate`, read as "a sorts no later
    than b". */
module Patients {
  import opened Common
  import opened Text
  import opened Types
  import opened Sorting

  /** `patient.skinProfile?.SkinType?.some(type => type.type === t)`. */
  predicate HasSkinType(p: Patient, t: string) {
    && p.skinProfile.Some?
    && p.skinProfile.value.skinTypes.Some?
    && exists e :: e in p.skinProfile.value.skinTypes.value && e.skinType == t
  }

  /** The filter of `filteredAndSortedPatients`. */
  predicate Kept(p: Patient, term: string, skinType: string) {
    (Includes(p.name, term) || Includes(p.email, term)) && (skinType == "ALL" || HasSkinType(p, skinType))
  }

  function KeepTest(term: string, skinType: string): Patient -> bool {
    (p: Patient) => Kept(p, term, skinType)
  }

  function NameOf(p: Patient): string { p.name }
  function EmailOf(p: Patient): string { p.email }
  function CreatedAt(p: Patient): int { p.createdAt }

  /** The comparator of the `switch (sortBy)`; the default returns 0, which
      calls every pair equal. */
  function Order(sortBy: string, collate: (string, string) -> bool): (Patient, Patient) -> bool {
    if sortBy == "name" then OnKey(NameOf, collate)
    else if sortBy == "email" then OnKey(EmailOf, collate)
    else if sortBy == "date" then Descending(CreatedAt)
    else (a: Patient, b: Patient) => true
  }

  /** `filteredAndSortedPatients`: the kept patients, sorted. */
  function FilteredAndSorted(patients: seq<Patient>, term: string, skinType: string, sortBy: string,
                             collate: (string, string) -> bool): (r: seq<Patient>)
    ensures multiset(r) == multiset(Filter(patients, KeepTest(term, skinType)))
    ensures forall p :: p in r <==> p in patients && Kept(p, term, skinType)
    ensures |r| == CountWhere(patients, KeepTest(term, skinType))
  {
    var kept := Filter(patients, KeepTest(term, skinType));
    var r := SortBy(kept, Order(sortBy, collate));
    assert forall p :: p in r <==> p in multiset(r);
    assert forall p :: p in kept <==> p in multiset(kept);
    r
  }

  /** "name" and "email" follow the collation, "date" puts the newest first. */
  lemma SortedByColumn(patients: seq<Patient>, term: string, skinType: string, sortBy: string,
                       collate: (string, string) -> bool)
    requires TotalPreorder(collate)
    requires sortBy == "name" || sortBy == "email" || sortBy == "date"
    ensures Sorted(FilteredAndSorted(patients, term, skinType, sortBy, collate), Order(sortBy, collate))
  {
    OnKeyTotal(NameOf, collate);
    OnKeyTotal(EmailOf, collate);
    DescendingTotal(CreatedAt);
    SortBySorted(Filter(patients, KeepTest(term, skinType)), Order(sortBy, collate));
  }

  /** Under "date", a later patient in the list never has a later `createdAt`. */
  lemma NewestFirst(patients: seq<Patient>, term: string, skinType: string, collate: (string, string) -> bool,
                    i: int, j: int)
    requires 0 <= i < j < |FilteredAndSorted(patients, term, skinType, "date", collate)|
    ensures var r := FilteredAndSorted(patients, term, skinType, "date", collate); r[j].createdAt <= r[i].createdAt
  {
    DescendingTotal(CreatedAt);
    SortBySorted(Filter(patients, KeepTest(term, skinType)), Order("date", collate));
    var r := FilteredAndSorted(patients, term, skinType, "date", collate);
    assert Order("date", collate) == Descending(CreatedAt);
    assert Descending(CreatedAt)(r[i], r[j]);
    assert CreatedAt(r[j]) <= CreatedAt(r[i]);
  }

  /** Any other `sortBy` keeps the filtered list in its fetched order. */
  lemma UnknownSortKeepsOrder(patients: seq<Patient>, term: string, skinType: string, sortBy: string,
                              collate: (string, string) -> bool)
    requires sortBy != "name" && sortBy != "email" && sortBy != "date"
    ensures FilteredAndSorted(patients, term, skinType, sortBy, collate) == Filter(patients, KeepTest(term, skinType))
    ensures IsSubsequence(FilteredAndSorted(patients, term, skinType, sortBy, collate), patients)
  {
    SortByAllEqual(Filter(patients, KeepTest(term, skinType)), Order(sortBy, collate));
  }

  /** A patient who has no skin profile is listed only under "ALL". */
  lemma NoProfileOnlyUnderAll(patients: seq<Patient>, term: string, skinType: string, sortBy: string,
                              collate: (string, string) -> bool, p: Patient)
    requires p in FilteredAndSorted(patients, term, skinType, sortBy, collate)
    requires p.skinProfile.None?
    ensures skinType == "ALL"
  {
  }

  /** The concerns cell: "Not assessed" when the profile or its list is
      missing; otherwise the first two concerns, each with its first "_"
      made a space, and "+n more" for the rest. */
  datatype ConcernsCell = NotAssessed | Listed(lines: seq<string>, more: Option<string>)

  function ConcernsColumn(p: Patient): (c: ConcernsCell)
    ensures c.NotAssessed? <==> p.skinProfile.None? || p.skinProfile.value.concerns.None?
    ensures c.Listed? ==> var cs := p.skinProfile.value.concerns.value;
      && |c.lines| == (if |cs| < 2 then |cs| else 2)
      && (forall i :: 0 <= i < |c.lines| ==> c.lines[i] == ReplaceFirst(cs[i].concern, '_', ' '))
      && (c.more.Some? <==> |cs| > 2)
      && (c.more.Some? ==> c.more.value == "+" + NatToString(|cs| - 2) + " more")
  {
    if p.skinProfile.None? || p.skinProfile.value.concerns.None? then NotAssessed
    else
      var cs := p.skinProfile.value.concerns.value;
      var first := Take(cs, 2);
      Listed(seq(|first|, i requires 0 <= i < |first| => ReplaceFirst(first[i].concern, '_', ' ')),
             if |cs| > 2 then Some("+" + NatToString(|cs| - 2) + " more") else None)
  }

  /** The cell accounts for every concern: the lines shown plus the number
      in "+n more" give the list's length. */
  lemma ConcernsColumnCounts(p: Patient)
    requires ConcernsColumn(p).Listed?
    ensures var c := ConcernsColumn(p); var n := |p.skinProfile.value.concerns.value|;
      c.more.Some? ==> |c.lines| + DigitsValue(c.more.value[1..|c.more.value| - 5]) == n
    ensures var c := ConcernsColumn(p); c.more.None? ==> |c.lines| == |p.skinProfile.value.concerns.value|
  {
    var c := ConcernsColumn(p);
    var n := |p.skinProfile.value.concerns.value|;
    if c.more.Some? {
      var digits := NatToString(n - 2);
      assert c.more.value[1..|c.more.value| - 5] == digits;
      ParseNatToString(n - 2);
    }
  }

  /** The skin-type cell: the type names, or "Not assessed" (`None`). */
  function SkinTypesColumn(p: Patient): (c: Option<seq<string>>)
    ensures c.None? <==> p.skinProfile.None? || p.skinProfile.value.skinTypes.None?
    ensures c.Some? ==> c.value == TypeNames(p.skinProfile.value.skinTypes.value)
  {
    if p.skinProfile.None? || p.skinProfile.value.skinTypes.None? then None
    else Some(TypeNames(p.skinProfile.value.skinTypes.value))
  }
}
