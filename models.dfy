/**
 * The record types of the transfer: a source page, and the transfer progress
 * that is kept in memory during a run and written to the progress file.
 */
module Models {
  import opened Wrappers
  import opened Json

  /** `NotionPage`: one record of the source database. */
  datatype NotionPage = NotionPage(
    id: string,
    properties: seq<(string, Json)>,
    children: Option<seq<Json>>)

  /**
   * The value of a `TransferProgress`: what `progress.dict()` writes to the
   * progress file and what `TransferProgress(**saved)` reads back.
   */
  datatype Progress = Progress(
    totalPages: int,
    transferred: seq<string>,
    failed: map<string, string>,
    cursor: Option<string>)

  /** A freshly constructed `TransferProgress()`. */
  const Initial: Progress := Progress(0, [], map[], None)

  /** No id occurs twice in `s`. */
  predicate NoDuplicates(s: seq<string>) {
    forall i, j :: 0 <= i < j < |s| ==> s[i] != s[j]
  }

  /** The effect of `add_transferred_page(id)` on a progress value. */
  function AddTransferred(p: Progress, id: string): (q: Progress)
    ensures q.totalPages == p.totalPages && q.failed == p.failed && q.cursor == p.cursor
    ensures p.transferred <= q.transferred
    ensures id in q.transferred
    ensures forall x :: x in q.transferred <==> x in p.transferred || x == id
    ensures |q.transferred| == |p.transferred| + (if id in p.transferred then 0 else 1)
  {
    if id in p.transferred then p else p.(transferred := p.transferred + [id])
  }

  /** The effect of `add_failed_page(id, error)` on a progress value. */
  function AddFailed(p: Progress, id: string, error: string): (q: Progress)
    ensures q.totalPages == p.totalPages && q.transferred == p.transferred && q.cursor == p.cursor
    ensures id in q.failed && q.failed[id] == error
    ensures q.failed.Keys == p.failed.Keys + {id}
    ensures forall x :: x in p.failed && x != id ==> q.failed[x] == p.failed[x]
  {
    p.(failed := p.failed[id := error])
  }

  /**
   * `progress_percentage`, over the reals: 0 for an empty page count, else the
   * share of transferred ids in the page count, times 100.
   */
  function Percentage(p: Progress): (r: real)
    ensures p.totalPages == 0 ==> r == 0.0
    ensures p.totalPages != 0 ==> r * (p.totalPages as real) == (|p.transferred| as real) * 100.0
    ensures 0 < p.totalPages && |p.transferred| <= p.totalPages ==> 0.0 <= r <= 100.0
  {
    if p.totalPages == 0 then 0.0
    else (|p.transferred| as real) / (p.totalPages as real) * 100.0
  }

  /** Adding an id that is already transferred changes nothing. */
  lemma AddTransferredIdempotent(p: Progress, id: string)
    ensures AddTransferred(AddTransferred(p, id), id) == AddTransferred(p, id)
  {
  }

  /** `add_transferred_page` never introduces a duplicate. */
  lemma {:induction false} AddTransferredKeepsNoDuplicates(p: Progress, id: string)
    requires NoDuplicates(p.transferred)
    ensures NoDuplicates(AddTransferred(p, id).transferred)
  {
    var s := AddTransferred(p, id).transferred;
    if id !in p.transferred {
      forall i, j | 0 <= i < j < |s| ensures s[i] != s[j] {
        if j == |s| - 1 {
          assert s[i] == p.transferred[i];
        }
      }
    }
  }

  /** 4 of 10 pages transferred reads as 40 percent. */
  lemma PercentageOfFourInTen(p: Progress)
    requires p.totalPages == 10 && |p.transferred| == 4
    ensures Percentage(p) == 40.0
  {
  }

  /**
   * `TransferProgress`: the progress object whose list and dict the add
   * methods update in place.
   */
  class TransferProgress {
    var totalPages: int
    var transferredPages: seq<string>
    var failedPages: map<string, string>
    var currentCursor: Option<string>

    /** The fields as one value. */
    function Snapshot(): Progress
      reads this
    {
      Progress(totalPages, transferredPages, failedPages, currentCursor)
    }

    /** `TransferProgress()` with every field at its default. */
    constructor ()
      ensures Snapshot() == Initial
    {
      totalPages := 0;
      transferredPages := [];
      failedPages := map[];
      currentCursor := None;
    }

    /** `TransferProgress(**saved)`: the fields taken from saved data. */
    constructor FromSaved(saved: Progress)
      ensures Snapshot() == saved
    {
      totalPages := saved.totalPages;
      transferredPages := saved.transferred;
      failedPages := saved.failed;
      currentCursor := saved.cursor;
    }

    /** `add_transferred_page`: append the id unless it is already there. */
    method AddTransferredPage(pageId: string)
      modifies this`transferredPages
      ensures Snapshot() == AddTransferred(old(Snapshot()), pageId)
      ensures NoDuplicates(old(transferredPages)) ==> NoDuplicates(transferredPages)
    {
      if NoDuplicates(transferredPages) {
        AddTransferredKeepsNoDuplicates(Snapshot(), pageId);
      }
      if pageId !in transferredPages {
        transferredPages := transferredPages + [pageId];
      }
    }

    /** `add_failed_page`: record (or overwrite) the error for the id. */
    method AddFailedPage(pageId: string, error: string)
      modifies this`failedPages
      ensures Snapshot() == AddFailed(old(Snapshot()), pageId, error)
    {
      failedPages := failedPages[pageId := error];
    }

    /** `progress_percentage`. */
    function ProgressPercentage(): (r: real)
      reads this
      ensures totalPages == 0 ==> r == 0.0
      ensures totalPages != 0 ==> r * (totalPages as real) == (|transferredPages| as real) * 100.0
    {
      Percentage(Snapshot())
    }
  }
}
