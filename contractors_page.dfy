/**
 * The contractors page (src/pages/ContractorsPage.jsx): one card per
 * contractor with its number of projects and its total contract cost,
 * largest total first, narrowed by a case-insensitive name search.
 */
module ContractorsPage {
  import opened Text
  import opened Seqs
  import opened Tally
  import opened Sumbong

  /** `{ name, projects, total }`. */
  datatype ContractorStat = ContractorStat(name: string, projects: real, total: real)

  function ContractorOf(p: Project): string {
    p.contractor
  }

  function CostOf(p: Project): real {
    p.cost
  }

  /** `if (!name) return;`. */
  predicate HasContractor(p: Project) {
    p.contractor != ""
  }

  function TotalOf(c: ContractorStat): real {
    c.total
  }

  /**
   * One step of the `forEach`: the contractor's card is created at the end
   * (0 projects, 0 total) when missing, then gains one project and `cost`.
   */
  function AddProject(stats: seq<ContractorStat>, name: string, cost: real): seq<ContractorStat> {
    if stats == [] then [ContractorStat(name, 0.0 + 1.0, 0.0 + cost)]
    else if stats[0].name == name then [stats[0].(projects := stats[0].projects + 1.0, total := stats[0].total + cost)] + stats[1..]
    else [stats[0]] + AddProject(stats[1..], name, cost)
  }

  /** Two dictionaries with the same keys in the same order. */
  predicate Aligned(a: seq<Entry>, b: seq<Entry>) {
    |a| == |b| && forall i :: 0 <= i < |a| ==> a[i].key == b[i].key
  }

  /** The cards are the project counter and the cost counter read side by side. */
  function Zip(counts: seq<Entry>, totals: seq<Entry>): (r: seq<ContractorStat>)
    requires Aligned(counts, totals)
    ensures |r| == |counts|
    ensures forall i :: 0 <= i < |r| ==> r[i] == ContractorStat(counts[i].key, counts[i].value, totals[i].value)
  {
    if counts == [] then [] else [ContractorStat(counts[0].key, counts[0].value, totals[0].value)] + Zip(counts[1..], totals[1..])
  }

  /** The counter of projects per contractor. */
  function Counts(ps: seq<Project>): seq<Entry> {
    Accumulate([], ps, ContractorOf, Ones(), HasContractor)
  }

  /** The counter of cost per contractor. */
  function Totals(ps: seq<Project>): seq<Entry> {
    Accumulate([], ps, ContractorOf, CostOf, HasContractor)
  }

  /** Aligned dictionaries have the same keys. */
  lemma AlignedKeys(a: seq<Entry>, b: seq<Entry>)
    requires Aligned(a, b)
    ensures Keys(a) == Keys(b)
  {
    forall e | e in a ensures e.key in Keys(b) {
      var i :| 0 <= i < |a| && a[i] == e;
      assert b[i] in b;
    }
    forall e | e in b ensures e.key in Keys(a) {
      var i :| 0 <= i < |b| && b[i] == e;
      assert a[i] in a;
    }
  }

  /** Bumping the same key in two aligned dictionaries keeps them aligned. */
  lemma BumpAligned(a: seq<Entry>, b: seq<Entry>, k: string, x: real, y: real)
    requires Aligned(a, b)
    ensures Aligned(Bump(a, k, x), Bump(b, k, y))
  {
    AlignedKeys(a, b);
    var ra, rb := Bump(a, k, x), Bump(b, k, y);
    assert |ra| == |rb|;
    forall i | 0 <= i < |ra| ensures ra[i].key == rb[i].key {
      if i < |a| {
        assert ra[i].key == a[i].key && rb[i].key == b[i].key;
      }
    }
  }

  /** Both counters see the same contractors in the same order. */
  lemma {:induction false} CountersAligned(ps: seq<Project>)
    ensures Aligned(Counts(ps), Totals(ps))
  {
    if ps != [] {
      var init := ps[..|ps| - 1];
      var x := ps[|ps| - 1];
      CountersAligned(init);
      if HasContractor(x) {
        BumpAligned(Counts(init), Totals(init), x.contractor, 1.0, x.cost);
      }
    }
  }

  /** Adding a project to the cards is bumping both counters. */
  lemma {:induction false} AddProjectBumpsBoth(counts: seq<Entry>, totals: seq<Entry>, name: string, cost: real)
    requires Aligned(counts, totals)
    ensures Aligned(Bump(counts, name, 1.0), Bump(totals, name, cost))
    ensures AddProject(Zip(counts, totals), name, cost) == Zip(Bump(counts, name, 1.0), Bump(totals, name, cost))
  {
    BumpAligned(counts, totals, name, 1.0, cost);
    if counts != [] && counts[0].key != name {
      AddProjectBumpsBoth(counts[1..], totals[1..], name, cost);
      assert Zip(counts, totals)[1..] == Zip(counts[1..], totals[1..]);
      assert Bump(counts, name, 1.0)[1..] == Bump(counts[1..], name, 1.0);
      assert Bump(totals, name, cost)[1..] == Bump(totals[1..], name, cost);
    }
  }

  /** `Object.values(stats)` before sorting. */
  function Cards(ps: seq<Project>): seq<ContractorStat> {
    CountersAligned(ps);
    Zip(Counts(ps), Totals(ps))
  }

  /** `contractors`: the cards, largest total first (a stable sort). */
  function Contractors(ps: seq<Project>): seq<ContractorStat> {
    SortDesc(Cards(ps), TotalOf)
  }

  /** The `forEach` over the projects followed by the sort. */
  method ComputeContractors(ps: seq<Project>) returns (r: seq<ContractorStat>)
    ensures r == Contractors(ps)
  {
    var stats: seq<ContractorStat> := [];
    var i := 0;
    while i < |ps|
      invariant 0 <= i <= |ps|
      invariant stats == Cards(ps[..i])
    {
      var p := ps[i];
      CountersAligned(ps[..i]);
      assert ps[..i + 1][..i] == ps[..i];
      if p.contractor != "" {
        AddProjectBumpsBoth(Counts(ps[..i]), Totals(ps[..i]), p.contractor, p.cost);
        stats := AddProject(stats, p.contractor, p.cost);
      }
      i := i + 1;
    }
    assert ps[..|ps|] == ps;
    r := SortDesc(stats, TotalOf);
  }

  /** A contractor's project count and its cost total, as sums over the projects. */
  function ProjectCount(ps: seq<Project>, name: string): real {
    |Filter(ps, KeyIs(ContractorOf, HasContractor, name))| as real
  }

  /** A project's cost when its contractor is `name`, else 0. */
  function CostIfBy(name: string): Project -> real {
    AmountFor(ContractorOf, CostOf, HasContractor, name)
  }

  /** The `i`-th card names a contractor of some project. */
  lemma CardName(ps: seq<Project>, i: nat)
    requires i < |Cards(ps)|
    ensures Cards(ps)[i].name != ""
    ensures exists p :: p in ps && p.contractor == Cards(ps)[i].name
  {
    CountersAligned(ps);
    var counts := Counts(ps);
    AccumulateKeys([], ps, ContractorOf, Ones(), HasContractor);
    assert counts[i] in counts;
    assert counts[i].key in Keys(counts);
  }

  /** The `i`-th card holds its contractor's number of projects and the sum of their costs. */
  lemma CardValues(ps: seq<Project>, i: nat)
    requires i < |Cards(ps)|
    ensures Cards(ps)[i].projects == ProjectCount(ps, Cards(ps)[i].name)
    ensures Cards(ps)[i].total == SumBy(ps, CostIfBy(Cards(ps)[i].name))
  {
    CountersAligned(ps);
    var counts, totals := Counts(ps), Totals(ps);
    var name := counts[i].key;
    AccumulateKeys([], ps, ContractorOf, Ones(), HasContractor);
    AccumulateKeys([], ps, ContractorOf, CostOf, HasContractor);
    ValueOfEntry(counts, i);
    ValueOfEntry(totals, i);
    CountValue([], ps, ContractorOf, HasContractor, name);
    AccumulateValue([], ps, ContractorOf, CostOf, HasContractor, name);
  }

  /** No contractor has two cards. */
  lemma CardsDistinct(ps: seq<Project>)
    ensures forall i, j :: 0 <= i < j < |Cards(ps)| ==> Cards(ps)[i].name != Cards(ps)[j].name
  {
    CountersAligned(ps);
    AccumulateKeys([], ps, ContractorOf, Ones(), HasContractor);
  }

  /** Every contractor named by some project has a card. */
  lemma EveryContractorHasACard(ps: seq<Project>, p: Project)
    requires p in ps && p.contractor != ""
    ensures exists c :: c in Cards(ps) && c.name == p.contractor
  {
    CountersAligned(ps);
    AccumulateKeys([], ps, ContractorOf, Ones(), HasContractor);
    assert p.contractor in Keys(Counts(ps));
    var e :| e in Counts(ps) && e.key == p.contractor;
    var i :| 0 <= i < |Counts(ps)| && Counts(ps)[i] == e;
    assert Cards(ps)[i].name == p.contractor;
  }

  /** The sorted list holds exactly the cards, largest total first. */
  lemma ContractorsSorted(ps: seq<Project>)
    ensures multiset(Contractors(ps)) == multiset(Cards(ps))
    ensures forall i, j :: 0 <= i < j < |Contractors(ps)| ==> Contractors(ps)[i].total >= Contractors(ps)[j].total
  {
    var r := Contractors(ps);
    assert Descending(r, TotalOf);
    forall i, j | 0 <= i < j < |r| ensures r[i].total >= r[j].total {
      assert TotalOf(r[i]) >= TotalOf(r[j]);
    }
  }

  /** The card counts add up to the number of projects that name a contractor. */
  lemma CountsAddUp(ps: seq<Project>)
    ensures Total(Counts(ps)) == |Filter(ps, HasContractor)| as real
  {
    CountTotal([], ps, ContractorOf, HasContractor);
  }

  /** `c.name.toLowerCase().includes(searchTerm.toLowerCase())`. */
  function NameMatches(term: string): ContractorStat -> bool {
    (c: ContractorStat) => Includes(Lower(c.name), Lower(term))
  }

  /** `filteredContractors`: the sorted cards whose name contains the search term, in the same order. */
  function FilterContractors(contractors: seq<ContractorStat>, term: string): (r: seq<ContractorStat>)
    ensures SubseqOf(r, contractors)
    ensures forall c :: c in r <==> c in contractors && Includes(Lower(c.name), Lower(term))
  {
    Filter(contractors, NameMatches(term))
  }

  /** An empty search shows every card. */
  lemma EmptySearchShowsAll(contractors: seq<ContractorStat>)
    ensures FilterContractors(contractors, "") == contractors
  {
    forall c | c in contractors ensures NameMatches("")(c) {
      IncludesEmpty(Lower(c.name));
    }
    FilterKeepsAll(contractors, NameMatches(""));
  }

  /** The search ignores the case of the term. */
  lemma SearchIgnoresCase(contractors: seq<ContractorStat>, term: string)
    ensures FilterContractors(contractors, Lower(term)) == FilterContractors(contractors, term)
  {
    LowerIdempotent(term);
  }
}
