/** The web catalogue of professionals (src/components/ProfessionalsList.tsx):
    the `Professional` record and the three-way filter behind the search box
    and the specialty and modality drop-downs. */
module Catalog {
  import opened Text
  import opened Seqs

  /** A professional as listed in the catalogue. The floating-point rating is
      not part of this model. */
  datatype Professional = Professional(
    id: int,
    name: string,
    specialty: string,
    description: string,
    reviews: nat,
    price: nat,
    location: string,
    modality: seq<string>,
    avatar: string,
    experience: nat,
    availability: string)

  /** The screen's three filter inputs: search text, specialty, modality. */
  datatype Criteria = Criteria(search: string, specialty: string, modality: string)

  /** The filters as the screen first shows them. */
  const OpenCriteria: Criteria := Criteria("", Wildcard, Wildcard)

  /** The predicate applied to each professional. */
  predicate Matches(c: Criteria, p: Professional) {
    && MatchesSearch(c.search, p.name, p.specialty)
    && (c.specialty == Wildcard || p.specialty == c.specialty)
    && (c.modality == Wildcard || c.modality in p.modality)
  }

  function Matcher(c: Criteria): Professional -> bool {
    (p: Professional) => Matches(c, p)
  }

  /** `filteredProfessionals`: the professionals that pass all three filters,
      in catalogue order. */
  function FilterProfessionals(ps: seq<Professional>, c: Criteria): (r: seq<Professional>)
    ensures forall p :: p in r ==>
      && p in ps
      && (Includes(LowerStr(c.search), LowerStr(p.name)) || Includes(LowerStr(c.search), LowerStr(p.specialty)))
      && (c.specialty == Wildcard || p.specialty == c.specialty)
      && (c.modality == Wildcard || c.modality in p.modality)
    ensures forall p :: p in ps && Matches(c, p) ==> p in r
    ensures IsSubsequence(r, ps) && |r| <= |ps|
  {
    Filter(ps, Matcher(c))
  }

  /** With every filter open the catalogue is shown unchanged. */
  lemma OpenFiltersKeepAll(ps: seq<Professional>)
    ensures FilterProfessionals(ps, OpenCriteria) == ps
  {
    forall p | p in ps
      ensures Matcher(OpenCriteria)(p)
    {
      EmptySearchMatchesAll(p.name, p.specialty);
    }
  }

  /** A concrete specialty or modality choice is honoured by every result. */
  lemma ConcreteChoicesAreExact(ps: seq<Professional>, c: Criteria)
    ensures c.specialty != Wildcard ==> forall p :: p in FilterProfessionals(ps, c) ==> p.specialty == c.specialty
    ensures c.modality != Wildcard ==> forall p :: p in FilterProfessionals(ps, c) ==> c.modality in p.modality
  {
  }

  /** `narrow` keeps the search of `wide` and, per drop-down, either agrees
      with `wide` or replaces its wildcard by a concrete value. */
  predicate Narrows(narrow: Criteria, wide: Criteria) {
    && narrow.search == wide.search
    && (wide.specialty == Wildcard || narrow.specialty == wide.specialty)
    && (wide.modality == Wildcard || narrow.modality == wide.modality)
  }

  /** Choosing a concrete specialty or modality in place of "all" can only
      drop professionals: the new list is a subsequence of the old one. */
  lemma NarrowingShrinks(ps: seq<Professional>, narrow: Criteria, wide: Criteria)
    requires Narrows(narrow, wide)
    ensures IsSubsequence(FilterProfessionals(ps, narrow), FilterProfessionals(ps, wide))
    ensures |FilterProfessionals(ps, narrow)| <= |FilterProfessionals(ps, wide)|
  {
    FilterMonotone(ps, Matcher(narrow), Matcher(wide));
    SubsequenceLength(FilterProfessionals(ps, narrow), FilterProfessionals(ps, wide));
  }

  function ProfessionalId(p: Professional): int {
    p.id
  }

  function Sample(id: int, name: string, specialty: string, reviews: nat, price: nat,
                  location: string, modality: seq<string>, experience: nat,
                  availability: string): Professional
  {
    Professional(id, name, specialty, "", reviews, price, location, modality, "", experience, availability)
  }

  /** The six professionals hard-coded in the web catalogue (descriptions and
      avatar URLs left empty). */
  const Maria := Sample(1, "Dra. María González", "Psicóloga Clínica", 127, 60, "Madrid, España",
                        ["Presencial", "Online"], 10, "Disponible esta semana")
  const Carlos := Sample(2, "Dr. Carlos Méndez", "Terapeuta Cognitivo", 98, 55, "Barcelona, España",
                         ["Online"], 8, "Disponible mañana")
  const Ana := Sample(3, "Lic. Ana Martínez", "Psicóloga Infantil", 156, 50, "Valencia, España",
                      ["Presencial", "Online"], 12, "Disponible esta semana")
  const Luis := Sample(4, "Dr. Luis Fernández", "Psiquiatra", 84, 80, "Sevilla, España",
                       ["Presencial"], 15, "Próxima semana")
  const Isabel := Sample(5, "Lic. Isabel Ruiz", "Coach de Vida", 112, 45, "Málaga, España",
                         ["Online"], 6, "Disponible hoy")
  const Roberto := Sample(6, "Dr. Roberto Silva", "Terapeuta de Pareja", 91, 70, "Bilbao, España",
                          ["Presencial", "Online"], 9, "Disponible esta semana")

  const SampleProfessionals: seq<Professional> := [Maria, Carlos, Ana, Luis, Isabel, Roberto]

  /** Which sample professionals pass the "Presencial" choice with the other
      filters open. */
  lemma PresencialVerdicts(m: Professional -> bool)
    requires m == Matcher(Criteria("", Wildcard, "Presencial"))
    ensures m(Maria) && !m(Carlos) && m(Ana) && m(Luis) && !m(Isabel) && m(Roberto)
  {
    EmptySearchMatchesAll(Maria.name, Maria.specialty);
    EmptySearchMatchesAll(Ana.name, Ana.specialty);
    EmptySearchMatchesAll(Luis.name, Luis.specialty);
    EmptySearchMatchesAll(Roberto.name, Roberto.specialty);
  }

  lemma PresencialFilterSteps(m: Professional -> bool)
    requires m == Matcher(Criteria("", Wildcard, "Presencial"))
    ensures Filter(SampleProfessionals, m) == [Maria] + ([Ana] + ([Luis] + [Roberto]))
  {
    PresencialVerdicts(m);
    assert Filter([Roberto], m) == [Roberto];
    assert Filter([Isabel, Roberto], m) == [Roberto];
    assert Filter([Luis, Isabel, Roberto], m) == [Luis] + [Roberto];
    assert Filter([Ana, Luis, Isabel, Roberto], m) == [Ana] + ([Luis] + [Roberto]);
    assert Filter([Carlos, Ana, Luis, Isabel, Roberto], m) == [Ana] + ([Luis] + [Roberto]);
  }

  /** Choosing "Presencial" with the other filters open lists ids 1, 3, 4, 6. */
  lemma PresencialSample()
    ensures Map(FilterProfessionals(SampleProfessionals, Criteria("", Wildcard, "Presencial")), ProfessionalId) == [1, 3, 4, 6]
  {
    var m := Matcher(Criteria("", Wildcard, "Presencial"));
    PresencialFilterSteps(m);
    var r := [Maria, Ana, Luis, Roberto];
    assert [Maria] + ([Ana] + ([Luis] + [Roberto])) == r;
    assert Maria.id == 1 && Ana.id == 3 && Luis.id == 4 && Roberto.id == 6;
    assert Map(r, ProfessionalId) == [1, 3, 4, 6];
  }
}
