/**
 * The analytics page (src/pages/VisualsPage.jsx): keyword classification
 * of the type of work, the page's filter, the region options and the
 * statistics behind its charts.
 */
module VisualsPage {
  import opened Wrappers
  import opened Text
  import opened Seqs
  import opened Tally
  import opened Sumbong
  import ProjectSelector

  /** The five classes found by keyword, in the order they are tested. */
  const Flood := "Flood Mitigation"
  const Drainage := "Drainage"
  const Slope := "Slope Protection"
  const River := "River Control"
  const Pump := "Pump"
  const Others := "Others"

  /** `typeOptions`. */
  const TypeOptions: seq<string> := [Flood, Drainage, Slope, River, Pump, Others]

  /** The first keyword found in lower-cased `text`, as its class. */
  function KeywordClass(text: string): (r: Option<string>)
    ensures Includes(text, "flood") ==> r == Some(Flood)
    ensures !Includes(text, "flood") && Includes(text, "drainage") ==> r == Some(Drainage)
    ensures !Includes(text, "flood") && !Includes(text, "drainage") && Includes(text, "slope")
            ==> r == Some(Slope)
    ensures (!Includes(text, "flood") && !Includes(text, "drainage") && !Includes(text, "slope")
             && Includes(text, "river")) ==> r == Some(River)
    ensures (!Includes(text, "flood") && !Includes(text, "drainage") && !Includes(text, "slope")
             && !Includes(text, "river") && Includes(text, "pump")) ==> r == Some(Pump)
    ensures r.Some? ==> r.value in TypeOptions && r.value != Others
    ensures r.None? <==> !Includes(text, "flood") && !Includes(text, "drainage") && !Includes(text, "slope")
                         && !Includes(text, "river") && !Includes(text, "pump")
  {
    if Includes(text, "flood") then Some(Flood)
    else if Includes(text, "drainage") then Some(Drainage)
    else if Includes(text, "slope") then Some(Slope)
    else if Includes(text, "river") then Some(River)
    else if Includes(text, "pump") then Some(Pump)
    else None
  }

  /** `classifyType`: the type of work decides first, then the description, else "Others". */
  function ClassifyType(p: Project): (c: string)
    ensures c in TypeOptions
    ensures KeywordClass(Lower(p.typeOfWork)).Some? ==> c == KeywordClass(Lower(p.typeOfWork)).value
    ensures KeywordClass(Lower(p.typeOfWork)).None? && KeywordClass(Lower(p.desc)).Some?
            ==> c == KeywordClass(Lower(p.desc)).value
    ensures KeywordClass(Lower(p.typeOfWork)).None? && KeywordClass(Lower(p.desc)).None? ==> c == Others
  {
    match KeywordClass(Lower(p.typeOfWork))
    case Some(c) => c
    case None =>
      match KeywordClass(Lower(p.desc))
      case Some(c) => c
      case None => Others
  }

  /** A keyword in the type of work decides the class whatever the description says. */
  lemma TypeOfWorkWins(p: Project, desc: string)
    requires KeywordClass(Lower(p.typeOfWork)).Some?
    ensures ClassifyType(p) == ClassifyType(p.(desc := desc)) == KeywordClass(Lower(p.typeOfWork)).value
  {
  }

  /** "Others" exactly when no keyword occurs in either field. */
  lemma OthersWhenNoKeyword(p: Project)
    ensures ClassifyType(p) == Others
            <==> KeywordClass(Lower(p.typeOfWork)).None? && KeywordClass(Lower(p.desc)).None?
  {
  }

  /** The page's selections; the province, DEO and district boxes are state the filter never reads. */
  datatype Selection = Selection(searchTerm: string, year: string, region: string, typ: string,
                                 province: string, deo: string, district: string)

  /** `new Date(p.date).getFullYear().toString()`; `yearOf` stands for date parsing (`None` is NaN). */
  function YearText(date: string, yearOf: string -> Option<int>): string {
    match yearOf(date)
    case Some(y) => IntToString(y)
    case None => "NaN"
  }

  /** `v => v.toLowerCase().includes(term.toLowerCase())`. */
  function ContainsTerm(term: string): string -> bool {
    v => Includes(Lower(v), Lower(term))
  }

  predicate NonEmpty(v: string) {
    v != ""
  }

  /** `[desc, contractor, region, location].filter(Boolean).some(...)`. */
  predicate SearchHit(p: Project, term: string) {
    exists v :: v in Filter([p.desc, p.contractor, p.region, p.location], NonEmpty) && ContainsTerm(term)(v)
  }

  /** The filter callback of `filteredProjects`. */
  predicate Matches(p: Project, sel: Selection, yearOf: string -> Option<int>) {
    && (sel.searchTerm == "" || SearchHit(p, sel.searchTerm))
    && (sel.year == "" || YearText(p.date, yearOf) == sel.year)
    && (sel.region == "" || p.region == sel.region)
    && (sel.typ == "" || ClassifyType(p) == sel.typ)
  }

  function MatchesFn(sel: Selection, yearOf: string -> Option<int>): Project -> bool {
    p => Matches(p, sel, yearOf)
  }

  function FilterVisuals(projects: seq<Project>, sel: Selection, yearOf: string -> Option<int>): (r: seq<Project>)
    ensures SubseqOf(r, projects)
    ensures forall p :: p in r <==> p in projects && Matches(p, sel, yearOf)
  {
    Filter(projects, MatchesFn(sel, yearOf))
  }

  /** Dropping empty values before the search changes nothing: an empty value never contains a non-empty term. */
  lemma SearchOverFourFields(p: Project, term: string)
    requires term != ""
    ensures SearchHit(p, term) <==> (|| ContainsTerm(term)(p.desc) || ContainsTerm(term)(p.contractor)
                                     || ContainsTerm(term)(p.region) || ContainsTerm(term)(p.location))
  {
    var vs := [p.desc, p.contractor, p.region, p.location];
    forall v | v in vs && v == "" ensures !ContainsTerm(term)(v) {
      IncludesTooLong(Lower(v), Lower(term));
    }
  }

  /** The province, DEO and district selections do not change the filtered list. */
  lemma UnusedSelectionsIgnored(projects: seq<Project>, sel: Selection, yearOf: string -> Option<int>,
                                province: string, deo: string, district: string)
    ensures FilterVisuals(projects, sel.(province := province, deo := deo, district := district), yearOf)
            == FilterVisuals(projects, sel, yearOf)
  {
    var sel' := sel.(province := province, deo := deo, district := district);
    FilterPointwise(projects, MatchesFn(sel', yearOf), MatchesFn(sel, yearOf));
  }

  function RegionOf(p: Project): string {
    p.region
  }

  /** `regionOptions`: distinct non-empty regions, ascending. */
  function RegionOptions(projects: seq<Project>): (r: seq<string>)
    ensures forall x :: x in r <==> x != "" && exists p :: p in projects && p.region == x
    ensures forall i, j :: 0 <= i < j < |r| ==> StrLess(r[i], r[j])
  {
    ProjectSelector.Extract(projects, ProjectSelector.Region)
  }

  // ---------------------------------------------------------------------------
  // Statistics.

  function CostOf(p: Project): real {
    p.cost
  }

  function ContractorOf(p: Project): string {
    p.contractor
  }

  predicate HasRegion(p: Project) {
    p.region != ""
  }

  predicate HasContractor(p: Project) {
    p.contractor != ""
  }

  predicate Always(p: Project) {
    true
  }

  /** `types` before counting: the six classes at 0, in `typeOptions` order. */
  const TypesInit: seq<Entry> := [Entry(Flood, 0.0), Entry(Drainage, 0.0), Entry(Slope, 0.0),
                                  Entry(River, 0.0), Entry(Pump, 0.0), Entry(Others, 0.0)]

  datatype Stats = Stats(
    totalProjects: nat,
    totalCost: real,
    uniqueContractors: nat,
    regions: seq<Entry>,
    types: seq<Entry>,
    sortedContractors: seq<Entry>,
    contractorLabels: seq<string>)

  /**
   * `stats`: the `forEach` counters and the top seven contractors by project
   * count, with the contractor chart's cut labels (`topContractorsData`).
   */
  method ComputeStats(filtered: seq<Project>) returns (st: Stats)
    ensures st.totalProjects == |filtered|
    ensures st.totalCost == SumBy(filtered, CostOf)
    ensures st.uniqueContractors == CountDistinct(Map(filtered, ContractorOf))
    ensures st.regions == Accumulate([], filtered, RegionOf, Ones(), HasRegion)
    ensures st.types == Accumulate(TypesInit, filtered, ClassifyType, Ones(), Always)
    ensures st.sortedContractors
            == Take(SortDesc(Accumulate([], filtered, ContractorOf, Ones(), HasContractor), EntryValue), 7)
    ensures st.contractorLabels == Labels(st.sortedContractors)
  {
    var regions := Fill([], filtered, RegionOf, Ones(), HasRegion);
    var types := Fill(TypesInit, filtered, ClassifyType, Ones(), Always);
    var contractors := Fill([], filtered, ContractorOf, Ones(), HasContractor);
    var top := Take(SortDesc(contractors, EntryValue), 7);
    st := Stats(|filtered|, SumBy(filtered, CostOf), CountDistinct(Map(filtered, ContractorOf)),
                regions, types, top, Labels(top));
  }

  /** The six type counts add up to the number of filtered projects. */
  lemma TypeCountsCoverAll(filtered: seq<Project>)
    ensures Total(Accumulate(TypesInit, filtered, ClassifyType, Ones(), Always)) == |filtered| as real
  {
    CountTotal(TypesInit, filtered, ClassifyType, Always);
    FilterKeepsAll(filtered, Always);
    TypesInitTotal();
  }

  lemma TypesInitTotal()
    ensures Total(TypesInit) == 0.0
  {
    var t := TypesInit;
    assert t[5..][1..] == [];
    assert Total(t[5..]) == 0.0;
    assert t[4..][1..] == t[5..];
    assert Total(t[4..]) == 0.0;
    assert t[3..][1..] == t[4..];
    assert Total(t[3..]) == 0.0;
    assert t[2..][1..] == t[3..];
    assert Total(t[2..]) == 0.0;
    assert t[1..][1..] == t[2..];
    assert Total(t[1..]) == 0.0;
  }

  /** Classification never adds a key beyond the six initial ones. */
  lemma TypeKeysFixed(filtered: seq<Project>)
    ensures Keys(Accumulate(TypesInit, filtered, ClassifyType, Ones(), Always)) == set t | t in TypeOptions
  {
    AccumulateKeys(TypesInit, filtered, ClassifyType, Ones(), Always);
    TypesInitKeys();
  }

  lemma TypesInitKeys()
    ensures Keys(TypesInit) == set t | t in TypeOptions
  {
    assert forall i :: 0 <= i < 6 ==> TypesInit[i].key == TypeOptions[i];
  }

  /** Each region's count is the number of filtered projects in that region; empty regions are skipped. */
  lemma RegionCounts(filtered: seq<Project>, region: string)
    ensures region != "" ==>
              ValueOf(Accumulate([], filtered, RegionOf, Ones(), HasRegion), region)
              == |Filter(filtered, KeyIs(RegionOf, HasRegion, region))| as real
    ensures "" !in Keys(Accumulate([], filtered, RegionOf, Ones(), HasRegion))
    ensures Total(Accumulate([], filtered, RegionOf, Ones(), HasRegion)) == |Filter(filtered, HasRegion)| as real
  {
    CountValue([], filtered, RegionOf, HasRegion, region);
    AccumulateKeys([], filtered, RegionOf, Ones(), HasRegion);
    CountTotal([], filtered, RegionOf, HasRegion);
  }

  /**
   * The top contractors: at most seven, non-increasing counts, drawn from
   * the counter without repeats, each a contractor of the filtered list
   * with its project count.
   */
  lemma TopContractors(filtered: seq<Project>)
    ensures var counts := Accumulate([], filtered, ContractorOf, Ones(), HasContractor);
      var top := Take(SortDesc(counts, EntryValue), 7);
      && |top| <= 7
      && Descending(top, EntryValue)
      && multiset(top) <= multiset(counts)
      && forall e :: e in top ==>
           && e.key != "" && (exists p :: p in filtered && p.contractor == e.key)
           && e.value == |Filter(filtered, KeyIs(ContractorOf, HasContractor, e.key))| as real
  {
    var counts := Accumulate([], filtered, ContractorOf, Ones(), HasContractor);
    TopDescending(counts, EntryValue, 7);
    AccumulateKeys([], filtered, ContractorOf, Ones(), HasContractor);
    forall e | e in Take(SortDesc(counts, EntryValue), 7)
      ensures e.key != "" && exists p :: p in filtered && p.contractor == e.key
      ensures e.value == |Filter(filtered, KeyIs(ContractorOf, HasContractor, e.key))| as real
    {
      assert e in counts;
      assert e.key in Keys(counts);
      var i :| 0 <= i < |counts| && counts[i] == e;
      ValueOfEntry(counts, i);
      CountValue([], filtered, ContractorOf, HasContractor, e.key);
    }
  }
}
