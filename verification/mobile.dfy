/** The mobile catalogue (mobile-app/components/ProfessionalsList.tsx): the same
    three-way filter as the web catalogue, but the screen never offers the
    specialty or modality drop-downs, so both stay at "all" and only the
    search text decides. */
module MobileCatalog {
  import opened Text
  import opened Seqs
  import opened Catalog

  /** The screen's only input: typing in the search box (`onChangeText`
      wired to `setSearchTerm`). The specialty and modality setters exist but
      no control calls them. */
  datatype ScreenEvent = SetSearchTerm(text: string)

  /** The filter state after one input. */
  function Handle(c: Criteria, e: ScreenEvent): Criteria {
    c.(search := e.text)
  }

  /** The filter state after a run of inputs. */
  function RunScreen(c: Criteria, es: seq<ScreenEvent>): Criteria
    decreases |es|
  {
    if |es| == 0 then c else RunScreen(Handle(c, es[0]), es[1..])
  }

  /** Whatever the user types, the specialty and modality filters keep their
      initial "all", and the search text is the last one typed. */
  lemma {:induction false} DropDownsStayOpen(c: Criteria, es: seq<ScreenEvent>)
    requires c.specialty == Wildcard && c.modality == Wildcard
    ensures RunScreen(c, es).specialty == Wildcard && RunScreen(c, es).modality == Wildcard
    ensures RunScreen(c, es).search == if |es| == 0 then c.search else es[|es| - 1].text
    decreases |es|
  {
    if |es| > 0 {
      DropDownsStayOpen(Handle(c, es[0]), es[1..]);
      if |es| > 1 {
        assert es[1..][|es[1..]| - 1] == es[|es| - 1];
      }
    }
  }

  /** The search text the screen holds after a run of inputs from start-up. */
  function SearchAfter(es: seq<ScreenEvent>): string {
    RunScreen(OpenCriteria, es).search
  }

  /** `filteredProfessionals` on the mobile screen after a run of inputs. */
  function MobileFilter(ps: seq<Professional>, es: seq<ScreenEvent>): (r: seq<Professional>)
    ensures forall p :: p in r ==> p in ps && MatchesSearch(SearchAfter(es), p.name, p.specialty)
    ensures forall p :: p in ps && MatchesSearch(SearchAfter(es), p.name, p.specialty) ==> p in r
    ensures IsSubsequence(r, ps) && |r| <= |ps|
  {
    DropDownsStayOpen(OpenCriteria, es);
    FilterProfessionals(ps, RunScreen(OpenCriteria, es))
  }

  /** Only the text typed last decides the list: earlier inputs leave no trace. */
  lemma OnlyLastSearchCounts(ps: seq<Professional>, es: seq<ScreenEvent>, e: ScreenEvent)
    ensures MobileFilter(ps, es + [e]) == MobileFilter(ps, [e])
  {
    DropDownsStayOpen(OpenCriteria, es + [e]);
    DropDownsStayOpen(OpenCriteria, [e]);
    assert RunScreen(OpenCriteria, es + [e]) == RunScreen(OpenCriteria, [e]);
  }

  /** The two professionals hard-coded on the mobile screen; their records
      coincide with the first two of the web catalogue. */
  const MobileSample: seq<Professional> := [Maria, Carlos]

  /** With an empty search both sample professionals are listed, in order. */
  lemma EmptySearchListsSample()
    ensures MobileFilter(MobileSample, []) == MobileSample
    ensures Map(MobileFilter(MobileSample, []), ProfessionalId) == [1, 2]
  {
    OpenFiltersKeepAll(MobileSample);
  }

  // The lemmas below about the sample records take the search term and the
  // records as parameters pinned by `requires` (`term == "cognitivo"`,
  // `maria == Maria`) rather than naming the constants in their bodies: the
  // solver then unfolds each string literal only where a step needs it, which
  // keeps these proofs about concrete text small.

  /** "cognitivo" occurs in the lower-cased specialty "terapeuta cognitivo". */
  lemma CognitivoMatchesCarlos(term: string)
    requires term == "cognitivo"
    ensures MatchesSearch(term, Carlos.name, Carlos.specialty)
  {
    assert LowerStr(term) == term;
    var specialty := LowerStr(Carlos.specialty);
    assert OccursAt(term, specialty, 10);
    IncludesIffOccurs(term, specialty);
  }

  /** "cognitivo" misses any professional whose name and specialty lack a 'v'. */
  lemma CognitivoNeedsLetterV(term: string, first: string, second: string)
    requires term == "cognitivo"
    requires 'v' !in first && 'V' !in first && 'v' !in second && 'V' !in second
    ensures !MatchesSearch(term, first, second)
  {
    assert 'v' in LowerStr(term) by {
      assert LowerStr(term) == term;
    }
    AbsentLetterBlocksMatch(term, first, second, 'v');
  }

  /** On a two-entry list where only the second entry matches, only it is listed. */
  lemma OnlySecondListed(es: seq<ScreenEvent>, a: Professional, b: Professional)
    requires !MatchesSearch(SearchAfter(es), a.name, a.specialty)
    requires MatchesSearch(SearchAfter(es), b.name, b.specialty)
    ensures MobileFilter([a, b], es) == [b]
  {
    DropDownsStayOpen(OpenCriteria, es);
    var m := Matcher(RunScreen(OpenCriteria, es));
    assert !m(a) && m(b);
    assert [a, b][1..] == [b];
    assert Filter([b], m) == [b] + Filter([], m);
  }

  /** "cognitivo" misses María González: neither her name nor her specialty has a 'v'. */
  lemma CognitivoMissesMaria(term: string, maria: Professional)
    requires term == "cognitivo" && maria == Maria
    ensures !MatchesSearch(term, maria.name, maria.specialty)
  {
    LacksV(maria.name, "Dra. María González");
    LacksV(maria.specialty, "Psicóloga Clínica");
    CognitivoNeedsLetterV(term, maria.name, maria.specialty);
  }

  /** Neither of María González's searched fields contains a 'v'. */
  lemma LacksV(s: string, text: string)
    requires s == text
    requires text == "Dra. María González" || text == "Psicóloga Clínica"
    ensures 'v' !in s && 'V' !in s
  {
  }

  /** Searching "cognitivo" over María González then Carlos Méndez keeps only
      Carlos Méndez. */
  lemma CognitivoKeepsCarlos(es: seq<ScreenEvent>, maria: Professional, carlos: Professional)
    requires SearchAfter(es) == "cognitivo"
    requires maria == Maria && carlos == Carlos
    ensures MobileFilter([maria, carlos], es) == [carlos]
  {
    CognitivoMissesMaria(SearchAfter(es), maria);
    CognitivoMatchesCarlos(SearchAfter(es));
    OnlySecondListed(es, maria, carlos);
  }

  /** Searching "cognitivo" finds only id 2, through its lower-cased specialty
      "terapeuta cognitivo". */
  lemma CognitivoSample()
    ensures Map(MobileFilter(MobileSample, [SetSearchTerm("cognitivo")]), ProfessionalId) == [2]
  {
    DropDownsStayOpen(OpenCriteria, [SetSearchTerm("cognitivo")]);
    CognitivoKeepsCarlos([SetSearchTerm("cognitivo")], Maria, Carlos);
    assert Carlos.id == 2;
  }
}
