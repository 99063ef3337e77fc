/**
 * The local report queue (src/hooks.js, `useReports`): a list of saved
 * reports kept in step with browser storage, appended to, filtered by id
 * and cleared.
 */
module Hooks {
  import opened Wrappers
  import opened Seqs
  import opened ReportView

  /** `r => r.id !== id`. */
  function IdIsNot(id: int): Draft -> bool {
    (r: Draft) => r.id != id
  }

  /** `prev.filter(r => r.id !== id)`: every report with that id goes, the rest keep their order. */
  function Without(reports: seq<Draft>, id: int): (r: seq<Draft>)
    ensures SubseqOf(r, reports)
    ensures forall d :: d in r <==> d in reports && d.id != id
  {
    Filter(reports, IdIsNot(id))
  }

  /** Deleting an id no report has leaves the list as it was. */
  lemma WithoutAbsent(reports: seq<Draft>, id: int)
    requires forall d :: d in reports ==> d.id != id
    ensures Without(reports, id) == reports
  {
    FilterKeepsAll(reports, IdIsNot(id));
  }

  /** Deleting twice is deleting once. */
  lemma WithoutIdempotent(reports: seq<Draft>, id: int)
    ensures Without(Without(reports, id), id) == Without(reports, id)
  {
    FilterIdempotent(reports, IdIsNot(id));
  }

  /** Deleting the id of a report just added removes that report and every earlier one with its id. */
  lemma WithoutAfterAdd(reports: seq<Draft>, report: Draft, id: int)
    ensures Without(reports + [report], id)
            == Without(reports, id) + (if report.id == id then [] else [report])
  {
    FilterAppend(reports, [report], IdIsNot(id));
    assert Filter([report], IdIsNot(id)) == if report.id == id then [] else [report] by {
      assert [report][1..] == [];
    }
  }

  /** `useReports`: the queue and its stored copy under `bk_reports`. */
  class ReportQueue {
    var reports: seq<Draft>
    /** What browser storage holds; the effect writes it after every change. */
    var stored: Option<seq<Draft>>

    /** The stored list when there is one, otherwise empty; the effect then stores it. */
    constructor (saved: Option<seq<Draft>>)
      ensures reports == saved.GetOr([])
      ensures stored == Some(reports)
    {
      reports := saved.GetOr([]);
      stored := Some(reports);
    }

    /** `addReport`: the report goes to the end; earlier entries are unchanged. */
    method Add(report: Draft)
      modifies this
      ensures reports == old(reports) + [report]
      ensures |reports| == |old(reports)| + 1 && reports[..|old(reports)|] == old(reports)
      ensures stored == Some(reports)
    {
      reports := reports + [report];
      stored := Some(reports);
    }

    /** `deleteReport`: every report with that id goes. */
    method Delete(id: int)
      modifies this
      ensures reports == Without(old(reports), id)
      ensures stored == Some(reports)
    {
      reports := Without(reports, id);
      stored := Some(reports);
    }

    /** `clearReports`. */
    method Clear()
      modifies this
      ensures reports == []
      ensures stored == Some(reports)
    {
      reports := [];
      stored := Some(reports);
    }
  }
}
