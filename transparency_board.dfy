/**
 * The transparency board (src/components/TransparencyBoard.jsx): headline
 * figures and two charts over a list of flood-control projects
 * — cost by region and the five contractors with the largest summed cost.
 */
module TransparencyBoard {
  import opened Seqs
  import opened Tally

  /** An entry of the board's built-in list. */
  datatype FloodProject = FloodProject(desc: string, loc: string, contractor: string, cost: real, date: string, region: string)

  function CostOf(p: FloodProject): real {
    p.cost
  }

  function RegionOf(p: FloodProject): string {
    p.region
  }

  function ContractorOf(p: FloodProject): string {
    p.contractor
  }

  /** Both dictionaries count every project, whatever its region or contractor. */
  predicate Always(p: FloodProject) {
    true
  }

  /** `regionCounts`: summed cost per region, regions in order of first appearance. */
  function RegionCosts(ps: seq<FloodProject>): seq<Entry> {
    Accumulate([], ps, RegionOf, CostOf, Always)
  }

  /** `contractorCosts`: summed cost per contractor. */
  function ContractorCosts(ps: seq<FloodProject>): seq<Entry> {
    Accumulate([], ps, ContractorOf, CostOf, Always)
  }

  datatype Board = Board(
    totalProjects: nat,
    totalCost: real,
    uniqueContractors: nat,
    regionCounts: seq<Entry>,
    sortedContractors: seq<Entry>,
    contractorLabels: seq<string>)

  /** The board's figures: `reduce`, the `Set` size, the two `forEach` loops, then sort, slice and labels. */
  method ComputeBoard(ps: seq<FloodProject>) returns (b: Board)
    ensures b.totalProjects == |ps|
    ensures b.totalCost == SumBy(ps, CostOf)
    ensures b.uniqueContractors == CountDistinct(Map(ps, ContractorOf))
    ensures b.regionCounts == RegionCosts(ps)
    ensures b.sortedContractors == Take(SortDesc(ContractorCosts(ps), EntryValue), 5)
    ensures b.contractorLabels == Labels(b.sortedContractors)
  {
    var regionCounts := Fill([], ps, RegionOf, CostOf, Always);
    var contractorCosts := Fill([], ps, ContractorOf, CostOf, Always);
    var top := Take(SortDesc(contractorCosts, EntryValue), 5);
    b := Board(|ps|, SumBy(ps, CostOf), CountDistinct(Map(ps, ContractorOf)), regionCounts, top, Labels(top));
  }

  /** The region totals add up to `totalCost`. */
  lemma RegionCostsAddUp(ps: seq<FloodProject>)
    ensures Total(RegionCosts(ps)) == SumBy(ps, CostOf)
  {
    AccumulateTotal([], ps, RegionOf, CostOf, Always);
    SumByPointwise(ps, AmountIf(CostOf, Always), CostOf);
  }

  /** A region's cost of `regionCounts`. */
  function RegionCost(ps: seq<FloodProject>, region: string): real {
    SumBy(ps, AmountFor(RegionOf, CostOf, Always, region))
  }

  /** One entry per region that occurs, each holding that region's summed cost. */
  lemma RegionCostsPerRegion(ps: seq<FloodProject>, region: string)
    ensures Keys(RegionCosts(ps)) == set p | p in ps :: p.region
    ensures KeysDistinct(RegionCosts(ps))
    ensures ValueOf(RegionCosts(ps), region) == RegionCost(ps, region)
  {
    AccumulateKeys([], ps, RegionOf, CostOf, Always);
    AccumulateValue([], ps, RegionOf, CostOf, Always, region);
  }

  /**
   * The contractor chart: at most five entries with non-increasing costs,
   * each a contractor of the list with its summed cost.
   */
  lemma TopContractorCosts(ps: seq<FloodProject>)
    ensures var top := Take(SortDesc(ContractorCosts(ps), EntryValue), 5);
      && |top| <= 5
      && Descending(top, EntryValue)
      && (|Keys(ContractorCosts(ps))| >= 5 ==> |top| == 5)
      && multiset(top) <= multiset(ContractorCosts(ps))
      && forall e :: e in top ==>
           (exists p :: p in ps && p.contractor == e.key)
           && e.value == SumBy(ps, AmountFor(ContractorOf, CostOf, Always, e.key))
  {
    var costs := ContractorCosts(ps);
    TopDescending(costs, EntryValue, 5);
    AccumulateKeys([], ps, ContractorOf, CostOf, Always);
    KeysCardinality(costs);
    forall e | e in Take(SortDesc(costs, EntryValue), 5)
      ensures exists p :: p in ps && p.contractor == e.key
      ensures e.value == SumBy(ps, AmountFor(ContractorOf, CostOf, Always, e.key))
    {
      assert e in costs;
      assert e.key in Keys(costs);
      var i :| 0 <= i < |costs| && costs[i] == e;
      ValueOfEntry(costs, i);
      AccumulateValue([], ps, ContractorOf, CostOf, Always, e.key);
    }
  }

  /** The contractor totals add up to `totalCost` as well. */
  lemma ContractorCostsAddUp(ps: seq<FloodProject>)
    ensures Total(ContractorCosts(ps)) == SumBy(ps, CostOf)
  {
    AccumulateTotal([], ps, ContractorOf, CostOf, Always);
    SumByPointwise(ps, AmountIf(CostOf, Always), CostOf);
  }

  /** `uniqueContractors` is the number of contractor entries. */
  lemma UniqueContractorsIsEntryCount(ps: seq<FloodProject>)
    ensures CountDistinct(Map(ps, ContractorOf)) == |ContractorCosts(ps)|
  {
    var costs := ContractorCosts(ps);
    AccumulateKeys([], ps, ContractorOf, CostOf, Always);
    KeysCardinality(costs);
    assert (set x | x in Map(ps, ContractorOf)) == Keys(costs) by {
      forall c | c in Map(ps, ContractorOf) ensures c in Keys(costs) {
        var i :| 0 <= i < |ps| && Map(ps, ContractorOf)[i] == c;
        assert ps[i] in ps;
      }
    }
  }
}
