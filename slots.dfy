/** The three arrays a page keeps per file (status text, progress percentage,
    download descriptor) and the index-local updaters every converter is
    handed: `prev => { const u = [...prev]; u[index] = v; return u; }`. */
module Slots {
  import opened Files

  /** `{ fileUrl, fileName }`; the pages fill unused slots with empty text. */
  datatype Download = Download(fileUrl: string, fileName: string)

  const NoDownload := Download("", "")

  /** What one file's row shows. */
  datatype Slot = Slot(status: string, progress: int, result: Download)

  class JobArrays {
    var statuses: seq<string>
    var progresses: seq<int>
    var results: seq<Download>
    /** Every status write, in order, as (index, text). */
    ghost var statusLog: seq<(nat, string)>

    /** The row of file i; meaningful while all three arrays reach i. */
    function SlotAt(i: nat): Slot
      reads this
      requires HasSlot(i)
    {
      Slot(statuses[i], progresses[i], results[i])
    }

    predicate HasSlot(i: nat)
      reads this
    {
      i < |statuses| && i < |progresses| && i < |results|
    }

    /** Between two states only row i changed and status writes were only
        appended to the log. */
    twostate predicate OnlyRowChanged(i: nat)
      reads this
    {
      |old(statuses)| == |statuses| && |old(progresses)| == |progresses| && |old(results)| == |results|
      && (i < |statuses| ==> statuses == old(statuses)[i := statuses[i]])
      && (i < |progresses| ==> progresses == old(progresses)[i := progresses[i]])
      && (i < |results| ==> results == old(results)[i := results[i]])
      && (i >= |statuses| ==> statuses == old(statuses))
      && (i >= |progresses| ==> progresses == old(progresses))
      && (i >= |results| ==> results == old(results))
      && old(statusLog) <= statusLog
    }

    constructor ()
      ensures statuses == [] && progresses == [] && results == [] && statusLog == []
    {
      statuses, progresses, results := [], [], [];
      statusLog := [];
    }

    method SetStatus(i: nat, s: string)
      requires i < |statuses|
      modifies this
      ensures statuses == old(statuses)[i := s]
      ensures progresses == old(progresses) && results == old(results)
      ensures statusLog == old(statusLog) + [(i, s)]
    {
      statuses := statuses[i := s];
      statusLog := statusLog + [(i, s)];
    }

    method SetProgress(i: nat, p: int)
      requires i < |progresses|
      modifies this
      ensures progresses == old(progresses)[i := p]
      ensures statuses == old(statuses) && results == old(results) && statusLog == old(statusLog)
    {
      progresses := progresses[i := p];
    }

    method SetResult(i: nat, d: Download)
      requires i < |results|
      modifies this
      ensures results == old(results)[i := d]
      ensures statuses == old(statuses) && progresses == old(progresses) && statusLog == old(statusLog)
    {
      results := results[i := d];
    }

    /** `Array(n).fill(v)` on all three arrays, as a conversion run starts. */
    method Fill(n: nat, s: string, p: int, d: Download)
      modifies this
      ensures |statuses| == |progresses| == |results| == n
      ensures forall i :: 0 <= i < n ==> SlotAt(i) == Slot(s, p, d)
      ensures statusLog == old(statusLog)
    {
      statuses := seq(n, _ => s);
      progresses := seq(n, _ => p);
      results := seq(n, _ => d);
    }

    /** Drop the status of file k (deletion filters the status array only). */
    method RemoveStatusAt(k: nat)
      modifies this
      ensures statuses == RemoveAt(old(statuses), k)
      ensures progresses == old(progresses) && results == old(results) && statusLog == old(statusLog)
    {
      statuses := RemoveAt(statuses, k);
    }

    method ClearStatuses()
      modifies this
      ensures statuses == [] && progresses == old(progresses) && results == old(results)
      ensures statusLog == old(statusLog)
    {
      statuses := [];
    }

    method ClearAll()
      modifies this
      ensures statuses == [] && progresses == [] && results == []
      ensures statusLog == old(statusLog)
    {
      statuses, progresses, results := [], [], [];
    }
  }
}
