/**
 * The transfer engine: load the saved progress, fetch one page of source
 * records, create each record not yet transferred in the destination
 * database, record the outcome and save the progress after every attempt.
 *
 * The origin API is the reply script of its query call; the destination API
 * gives, for the record at position k of the page, the reply script of that
 * record's create call. The progress file is the `store` field.
 */
module Transfer {
  import opened Wrappers
  import opened Json
  import opened Models
  import opened Api

  /** The error recorded for a record whose creation did not yield an id. */
  const FailureMessage: string := "Ошибка при создании страницы"

  /**
   * `NotionPage(id=result["id"], properties=result["properties"],
   * children=result.get("children", []))`, or `None` where that raises: a
   * missing key, or a field of the wrong type.
   */
  function ToPage(result: Json): Option<NotionPage> {
    match result
    case JObject(fields) =>
      (match (Get(fields, "id"), Get(fields, "properties"))
       case (Some(JString(id)), Some(JObject(properties))) =>
         (match Get(fields, "children")
          case None => Some(NotionPage(id, properties, Some([])))
          case Some(JNull) => Some(NotionPage(id, properties, None))
          case Some(JArray(blocks)) =>
            if forall b :: b in blocks ==> b.JObject? then Some(NotionPage(id, properties, Some(blocks)))
            else None
          case Some(_) => None)
       case _ => None)
    case _ => None
  }

  /** The `page_data` that `transfer_page` hands to `create_page`. */
  function PagePayload(destDatabaseId: string, page: NotionPage): (payload: Json)
    ensures payload.JObject?
    ensures var parent := Get(payload.fields, "parent");
      parent.Some? && parent.value.JObject? &&
      Get(parent.value.fields, "database_id") == Some(JString(destDatabaseId))
    ensures Get(payload.fields, "properties") == Some(JObject(page.properties))
    ensures Get(payload.fields, "children") == None
  {
    JObject([("parent", JObject([("database_id", JString(destDatabaseId))])),
             ("properties", JObject(page.properties))])
  }

  /**
   * What `transfer_page` returns for a `create_page` call that ended in
   * `result`: `response["id"]`, or `None` when the call raised or the
   * lookup fails (the call returned `None`, a non-object, or no "id").
   */
  function CreatedId(result: CallResult): Option<Json> {
    match result
    case Returned(JObject(fields)) => Get(fields, "id")
    case _ => None
  }

  /** The `if new_page_id := ...` test: an id came back and it is truthy. */
  predicate Created(result: CallResult) {
    CreatedId(result).Some? && Truthy(CreatedId(result).value)
  }

  /**
   * The state of the per-record loop: the progress, the source ids whose
   * creation was attempted, the snapshots saved, and whether an exception
   * left the loop.
   */
  datatype Pass = Pass(progress: Progress, calls: seq<string>, saves: seq<Progress>, fatal: bool)

  /**
   * What the loop learns about one entry of `results`: the record built from
   * it (`None` when building it raises), and whether a `create_page` call for
   * it would yield a truthy id.
   */
  datatype Step = Step(record: Option<NotionPage>, created: bool)

  /** The replies to the create call of the record at position `k`. */
  function DestAt(dest: seq<seq<Reply>>, k: nat): seq<Reply> {
    if k < |dest| then dest[k] else []
  }

  /** The steps of a page, with the destination's replies for each position. */
  function Steps(records: seq<Option<NotionPage>>, dest: seq<seq<Reply>>): seq<Step> {
    seq(|records|, k requires 0 <= k < |records| =>
      Step(records[k], Created(Exchanged(DestAt(dest, k)).result)))
  }

  /**
   * One iteration: stop on a record that cannot be built, skip an id already
   * transferred, otherwise record the creation's outcome and save.
   */
  function Visit(s: Pass, step: Step): Pass {
    if s.fatal then s
    else match step.record
      case None => s.(fatal := true)
      case Some(page) =>
        if page.id in s.progress.transferred then s
        else
          var q := if step.created then AddTransferred(s.progress, page.id)
                   else AddFailed(s.progress, page.id, FailureMessage);
          Pass(q, s.calls + [page.id], s.saves + [q], false)
  }

  /** The loop over `steps`, started from progress `p`. */
  function Loop(p: Progress, steps: seq<Step>): Pass
    decreases |steps|
  {
    if steps == [] then Pass(p, [], [], false)
    else Visit(Loop(p, steps[..|steps| - 1]), steps[|steps| - 1])
  }

  /** One more step of the loop is one more `Visit`. */
  lemma LoopExtends(p: Progress, steps: seq<Step>, i: nat)
    requires i < |steps|
    ensures Loop(p, steps[..i + 1]) == Visit(Loop(p, steps[..i]), steps[i])
  {
    assert steps[..i + 1][..i] == steps[..i];
  }

  /**
   * The record built from each entry of `results`; an entry whose
   * `NotionPage(...)` raises is `None`. Building is pure, so building every
   * record up front and failing when the loop reaches a `None` is the same
   * as building each one when the loop reaches it.
   */
  function Built(items: seq<Json>): seq<Option<NotionPage>> {
    seq(|items|, k requires 0 <= k < |items| => ToPage(items[k]))
  }

  /** The progress after `load_saved_progress`: the saved one when there is one. */
  function Loaded(store: Option<Progress>, current: Progress): Progress {
    if store.Some? then store.value else current
  }

  /** What the query's response yields to `run`. */
  datatype Fetch =
      /** The response is `None`, a non-object, raised, or its results cannot be iterated as records. */
    | Unreadable
      /** `not response.get("results")`. */
    | NoResults
    | Results(items: seq<Json>)

  function Fetched(response: CallResult): Fetch {
    match response
    case Returned(JObject(fields)) =>
      (match Get(fields, "results")
       case None => NoResults
       case Some(v) =>
         if !Truthy(v) then NoResults
         else if v.JArray? then Results(v.items)
         else Unreadable)
    case _ => Unreadable
  }

  /** How a run ends. */
  datatype Outcome =
      /** The source returned no records. */
    | NoData
      /** The page was processed; `failedCount` entries stand in `failed_pages`. */
    | Completed(failedCount: nat)
      /** An exception reached `run`'s handler: the process exits with status 1. */
    | Fatal

  datatype RunResult = RunResult(
    outcome: Outcome,
    progress: Progress,
    store: Option<Progress>,
    calls: seq<string>,
    saves: seq<Progress>)

  /** `run`, from the progress file `store` and the in-memory progress `p`. */
  function RunSpec(store: Option<Progress>, p: Progress, origin: seq<Reply>, dest: seq<seq<Reply>>): (r: RunResult)
    ensures r.progress.cursor == Loaded(store, p).cursor
    ensures !Fetched(Exchanged(origin).result).Results? ==>
              r.progress == Loaded(store, p) && r.store == store && r.calls == [] && r.saves == []
    ensures Fetched(Exchanged(origin).result).Results? ==>
              r.progress.totalPages == |Fetched(Exchanged(origin).result).items|
  {
    var loaded := Loaded(store, p);
    match Fetched(Exchanged(origin).result)
    case Unreadable => RunResult(Fatal, loaded, store, [], [])
    case NoResults => RunResult(NoData, loaded, store, [], [])
    case Results(results) =>
      var start := loaded.(totalPages := |results|);
      var pass := Loop(start, Steps(Built(results), dest));
      LoopFrame(start, Steps(Built(results), dest));
      RunResult(
        if pass.fatal then Fatal else Completed(|pass.progress.failed|),
        pass.progress,
        if pass.saves == [] then store else Some(pass.progress),
        pass.calls,
        pass.saves)
  }

  // ---------------------------------------------------------------------
  // Properties of the record and response readers

  /**
   * A record is built exactly from an object whose "id" is a string and whose
   * "properties" is an object; an absent "children" becomes the empty list.
   */
  lemma ToPageReadsFields(result: Json)
    ensures ToPage(result).Some? ==>
              result.JObject? &&
              Get(result.fields, "id") == Some(JString(ToPage(result).value.id)) &&
              Get(result.fields, "properties") == Some(JObject(ToPage(result).value.properties))
    ensures result.JObject? && Get(result.fields, "id").Some? && Get(result.fields, "id").value.JString? &&
            Get(result.fields, "properties").Some? && Get(result.fields, "properties").value.JObject? &&
            Get(result.fields, "children").None? ==>
              ToPage(result).Some? && ToPage(result).value.children == Some([])
    ensures !result.JObject? || Get(result.fields, "id").None? || Get(result.fields, "properties").None? ==>
              ToPage(result).None?
  {
  }

  /** `transfer_page` yields an id only from an object returned by the create call. */
  lemma CreatedIdOnlyFromReturnedObject(result: CallResult)
    ensures CreatedId(result).Some? ==>
              result.Returned? && result.body.JObject? &&
              Get(result.body.fields, "id") == CreatedId(result)
    ensures result.Raised? || result.FellThrough? ==> !Created(result)
  {
  }

  /**
   * The three ways `run` reads the query response: records only from a
   * non-empty "results" list, no data exactly when "results" is missing or
   * falsy in a returned object, and a crash otherwise.
   */
  lemma FetchedCases(response: CallResult)
    ensures Fetched(response).Results? ==>
              response.Returned? && response.body.JObject? &&
              Get(response.body.fields, "results") == Some(JArray(Fetched(response).items)) &&
              Fetched(response).items != []
    ensures Fetched(response).NoResults? <==>
              response.Returned? && response.body.JObject? &&
              (Get(response.body.fields, "results").None? || !Truthy(Get(response.body.fields, "results").value))
  {
  }

  // ---------------------------------------------------------------------
  // Properties of the per-record loop

  /** The id of a step whose record was built. */
  function IdOf(step: Step): string
    requires step.record.Some?
  {
    step.record.value.id
  }

  /**
   * The loop leaves the page count and the cursor alone, only appends to the
   * transferred list, never removes a failed entry, and keeps the
   * transferred list free of duplicates.
   */
  lemma {:induction false} LoopFrame(p: Progress, steps: seq<Step>)
    ensures var r := Loop(p, steps);
      r.progress.totalPages == p.totalPages && r.progress.cursor == p.cursor &&
      p.transferred <= r.progress.transferred &&
      p.failed.Keys <= r.progress.failed.Keys &&
      (NoDuplicates(p.transferred) ==> NoDuplicates(r.progress.transferred))
    decreases |steps|
  {
    if steps != [] {
      var prefix := steps[..|steps| - 1];
      LoopFrame(p, prefix);
      var s := Loop(p, prefix);
      var step := steps[|steps| - 1];
      if !s.fatal && step.record.Some? && NoDuplicates(s.progress.transferred) {
        AddTransferredKeepsNoDuplicates(s.progress, IdOf(step));
      }
    }
  }

  /**
   * One save per attempted record, and each saved snapshot already holds
   * the outcome of the record just attempted; the last save is the final
   * progress.
   */
  lemma {:induction false} LoopSavesEach(p: Progress, steps: seq<Step>)
    ensures var r := Loop(p, steps);
      |r.saves| == |r.calls| &&
      (r.saves != [] ==> r.saves[|r.saves| - 1] == r.progress) &&
      forall k :: 0 <= k < |r.saves| ==>
        r.calls[k] in r.saves[k].transferred ||
        (r.calls[k] in r.saves[k].failed && r.saves[k].failed[r.calls[k]] == FailureMessage)
    decreases |steps|
  {
    if steps != [] {
      LoopSavesEach(p, steps[..|steps| - 1]);
    }
  }

  /** A record whose id is already transferred is never sent to `create_page`. */
  lemma {:induction false} LoopSkipsTransferred(p: Progress, steps: seq<Step>)
    ensures forall id :: id in p.transferred ==> id !in Loop(p, steps).calls
    decreases |steps|
  {
    if steps != [] {
      var prefix := steps[..|steps| - 1];
      LoopSkipsTransferred(p, prefix);
      LoopFrame(p, prefix);
    }
  }

  /**
   * A completed loop has accounted for every record of the page: each one
   * was built, and its id is transferred or has a failed entry.
   */
  lemma {:induction false} LoopCovers(p: Progress, steps: seq<Step>)
    ensures var r := Loop(p, steps);
      !r.fatal ==> forall k :: 0 <= k < |steps| ==>
        steps[k].record.Some? &&
        (IdOf(steps[k]) in r.progress.transferred || IdOf(steps[k]) in r.progress.failed)
    decreases |steps|
  {
    if steps != [] {
      var n := |steps| - 1;
      var prefix := steps[..n];
      LoopCovers(p, prefix);
      var s := Loop(p, prefix);
      var r := Loop(p, steps);
      if !r.fatal {
        forall k | 0 <= k < |steps|
          ensures steps[k].record.Some? &&
                  (IdOf(steps[k]) in r.progress.transferred || IdOf(steps[k]) in r.progress.failed)
        {
          if k < n {
            assert steps[k] == prefix[k];
          }
        }
      }
    }
  }

  /**
   * Every attempted id ends transferred or failed with the fixed message, and
   * every failed entry holds that message unless it predates the run.
   */
  lemma {:induction false} LoopRoutes(p: Progress, steps: seq<Step>)
    ensures var r := Loop(p, steps);
      (forall id :: id in r.calls ==>
         id in r.progress.transferred ||
         (id in r.progress.failed && r.progress.failed[id] == FailureMessage)) &&
      (forall id :: id in r.progress.failed ==>
         r.progress.failed[id] == FailureMessage ||
         (id in p.failed && r.progress.failed[id] == p.failed[id]))
    decreases |steps|
  {
    if steps != [] {
      LoopRoutes(p, steps[..|steps| - 1]);
    }
  }

  /** Once an exception has left the loop, the later records change nothing. */
  lemma {:induction false} LoopFatalSticky(p: Progress, steps: seq<Step>, i: nat)
    requires i <= |steps| && Loop(p, steps[..i]).fatal
    ensures Loop(p, steps) == Loop(p, steps[..i])
    decreases |steps|
  {
    if i < |steps| {
      var prefix := steps[..|steps| - 1];
      assert prefix[..i] == steps[..i];
      LoopFatalSticky(p, prefix, i);
    } else {
      assert steps[..i] == steps;
    }
  }

  /** A page whose every record is already transferred causes no call, no save and no change. */
  lemma {:induction false} LoopNothingPending(p: Progress, steps: seq<Step>)
    requires forall k :: 0 <= k < |steps| ==> steps[k].record.Some? && IdOf(steps[k]) in p.transferred
    ensures Loop(p, steps) == Pass(p, [], [], false)
    decreases |steps|
  {
    if steps != [] {
      var prefix := steps[..|steps| - 1];
      forall k | 0 <= k < |prefix| ensures prefix[k].record.Some? && IdOf(prefix[k]) in p.transferred {
        assert prefix[k] == steps[k];
      }
      LoopNothingPending(p, prefix);
    }
  }

  /** The ids of steps whose records were all built. */
  function StepIds(steps: seq<Step>): (ids: seq<string>)
    requires forall k :: 0 <= k < |steps| ==> steps[k].record.Some?
    ensures |ids| == |steps|
    ensures forall k :: 0 <= k < |steps| ==> ids[k] == IdOf(steps[k])
    decreases |steps|
  {
    if steps == [] then []
    else StepIds(steps[..|steps| - 1]) + [IdOf(steps[|steps| - 1])]
  }

  /** The ids of `ids` not in `done`, in order. */
  function Pending(ids: seq<string>, done: seq<string>): (r: seq<string>)
    ensures forall x :: x in r <==> x in ids && x !in done
    decreases |ids|
  {
    if ids == [] then []
    else Pending(ids[..|ids| - 1], done) + (if ids[|ids| - 1] in done then [] else [ids[|ids| - 1]])
  }

  /**
   * `Pending` keeps the order of `ids`: two pending positions `a < b` show up
   * in the result in the same order.
   */
  lemma {:induction false} PendingKeepsOrder(ids: seq<string>, done: seq<string>, a: nat, b: nat)
    requires a < b < |ids| && ids[a] !in done && ids[b] !in done
    ensures exists i, j :: 0 <= i < j < |Pending(ids, done)| &&
              Pending(ids, done)[i] == ids[a] && Pending(ids, done)[j] == ids[b]
    decreases |ids|
  {
    var prefix := ids[..|ids| - 1];
    var r := Pending(ids, done);
    var rp := Pending(prefix, done);
    assert r[..|rp|] == rp;
    if b == |ids| - 1 {
      assert prefix[a] == ids[a];
      var i :| 0 <= i < |rp| && rp[i] == ids[a];
      assert 0 <= i < |rp| < |r| && r[i] == ids[a] && r[|rp|] == ids[b];
    } else {
      assert prefix[a] == ids[a] && prefix[b] == ids[b];
      PendingKeepsOrder(prefix, done, a, b);
      var i, j :| 0 <= i < j < |rp| && rp[i] == ids[a] && rp[j] == ids[b];
      assert r[i] == rp[i] && r[j] == rp[j];
      assert 0 <= i < j < |r| && r[i] == ids[a] && r[j] == ids[b];
    }
  }

  /** `Pending` of a duplicate-free list is duplicate-free: no id is pending twice. */
  lemma {:induction false} PendingNoDup(ids: seq<string>, done: seq<string>)
    requires NoDuplicates(ids)
    ensures NoDuplicates(Pending(ids, done))
    decreases |ids|
  {
    if ids != [] {
      var prefix := ids[..|ids| - 1];
      var last := ids[|ids| - 1];
      assert NoDuplicates(prefix) by {
        forall i, j | 0 <= i < j < |prefix| ensures prefix[i] != prefix[j] {
          assert prefix[i] == ids[i] && prefix[j] == ids[j];
        }
      }
      PendingNoDup(prefix, done);
      assert last !in prefix by {
        forall k | 0 <= k < |prefix| ensures prefix[k] != last {
          assert prefix[k] == ids[k];
        }
      }
    }
  }

  /** Every record of `steps` was built, and no two share an id. */
  predicate BuiltDistinct(steps: seq<Step>) {
    (forall k :: 0 <= k < |steps| ==> steps[k].record.Some?) &&
    (forall i, j :: 0 <= i < j < |steps| ==> IdOf(steps[i]) != IdOf(steps[j]))
  }

  /** Dropping the last step keeps `BuiltDistinct`, and the last id does not occur before. */
  lemma BuiltDistinctPrefix(steps: seq<Step>)
    requires steps != [] && BuiltDistinct(steps)
    ensures var n := |steps| - 1;
      BuiltDistinct(steps[..n]) && StepIds(steps)[..n] == StepIds(steps[..n]) &&
      IdOf(steps[n]) !in StepIds(steps[..n])
  {
    var n := |steps| - 1;
    var prefix := steps[..n];
    assert forall k :: 0 <= k < |prefix| ==> prefix[k] == steps[k];
    assert StepIds(steps)[..n] == StepIds(prefix);
    forall k | 0 <= k < n ensures StepIds(prefix)[k] != IdOf(steps[n]) {
      assert prefix[k] == steps[k];
    }
  }

  /**
   * On a page of distinct ids whose records are all built, the loop
   * completes and calls `create_page` exactly once for each id not already
   * transferred, in page order.
   */
  lemma {:induction false} LoopCallsEachPendingOnce(p: Progress, steps: seq<Step>)
    requires BuiltDistinct(steps)
    ensures var r := Loop(p, steps);
      !r.fatal && r.calls == Pending(StepIds(steps), p.transferred) &&
      NoDuplicates(r.calls) &&
      forall x :: x in r.progress.transferred ==> x in p.transferred || x in r.calls
    decreases |steps|
  {
    var ids := StepIds(steps);
    assert NoDuplicates(ids) by {
      forall i, j | 0 <= i < j < |ids| ensures ids[i] != ids[j] {
        assert ids[i] == IdOf(steps[i]) && ids[j] == IdOf(steps[j]);
      }
    }
    PendingNoDup(ids, p.transferred);
    if steps != [] {
      var n := |steps| - 1;
      var prefix := steps[..n];
      BuiltDistinctPrefix(steps);
      LoopCallsEachPendingOnce(p, prefix);
      LoopFrame(p, prefix);
      var s := Loop(p, prefix);
      var x := IdOf(steps[n]);
      assert x in s.progress.transferred <==> x in p.transferred;
    }
  }

  lemma {:induction false} PendingOfNothing(ids: seq<string>)
    ensures Pending(ids, []) == ids
    decreases |ids|
  {
    if ids != [] {
      PendingOfNothing(ids[..|ids| - 1]);
    }
  }

  /** On a fresh progress and a page of distinct ids, exactly one creation attempt per record. */
  lemma OneAttemptPerRecord(p: Progress, steps: seq<Step>)
    requires p.transferred == [] && BuiltDistinct(steps)
    ensures |Loop(p, steps).calls| == |steps|
    ensures forall k :: 0 <= k < |steps| ==> Loop(p, steps).calls[k] == IdOf(steps[k])
  {
    LoopCallsEachPendingOnce(p, steps);
    PendingOfNothing(StepIds(steps));
  }

  // ---------------------------------------------------------------------
  // Properties of whole runs

  /**
   * Idempotent resume: a run started from the file the previous run left
   * behind never creates again a record that the previous run transferred,
   * nor one that the file records as transferred.
   */
  lemma ResumeNeverRecreates(
    store: Option<Progress>, p1: Progress, o1: seq<Reply>, d1: seq<seq<Reply>>,
    p2: Progress, o2: seq<Reply>, d2: seq<seq<Reply>>)
    ensures var r1 := RunSpec(store, p1, o1, d1);
      var r2 := RunSpec(r1.store, p2, o2, d2);
      (forall id :: id in r1.calls && id in r1.progress.transferred ==> id !in r2.calls) &&
      (forall id :: r1.store.Some? && id in r1.store.value.transferred ==> id !in r2.calls)
  {
    var r1 := RunSpec(store, p1, o1, d1);
    var r2 := RunSpec(r1.store, p2, o2, d2);
    var f1 := Fetched(Exchanged(o1).result);
    if f1.Results? {
      LoopSavesEach(Loaded(store, p1).(totalPages := |f1.items|), Steps(Built(f1.items), d1));
    }
    var f2 := Fetched(Exchanged(o2).result);
    if f2.Results? {
      LoopSkipsTransferred(Loaded(r1.store, p2).(totalPages := |f2.items|), Steps(Built(f2.items), d2));
    }
  }

  /**
   * After a run the progress file holds the last snapshot saved, which is
   * the final progress; a run that saved nothing leaves the file as it was.
   */
  lemma RunStoreIsLastSave(store: Option<Progress>, p: Progress, origin: seq<Reply>, dest: seq<seq<Reply>>)
    ensures var r := RunSpec(store, p, origin, dest);
      r.store == if r.saves == [] then store else Some(r.saves[|r.saves| - 1])
  {
    var f := Fetched(Exchanged(origin).result);
    if f.Results? {
      LoopSavesEach(Loaded(store, p).(totalPages := |f.items|), Steps(Built(f.items), dest));
    }
  }

  /** A source that returns no records: no call, no save, progress as loaded. */
  lemma EmptyPageChangesNothing(store: Option<Progress>, p: Progress, origin: seq<Reply>, dest: seq<seq<Reply>>)
    requires Exchanged(origin).result.Returned? && Exchanged(origin).result.body.JObject?
    requires Get(Exchanged(origin).result.body.fields, "results") == Some(JArray([]))
    ensures RunSpec(store, p, origin, dest) == RunResult(NoData, Loaded(store, p), store, [], [])
  {
  }

  /** `NotionTransfer`: the run state, with the progress object and the progress file. */
  class NotionTransfer {
    const originDatabaseId: string
    const destDatabaseId: string
    var progress: TransferProgress
    /** The contents of the progress file; `None` when it is missing or empty. */
    var store: Option<Progress>

    constructor (originDatabaseId: string, destDatabaseId: string, store: Option<Progress>)
      ensures this.originDatabaseId == originDatabaseId && this.destDatabaseId == destDatabaseId
      ensures fresh(progress) && progress.Snapshot() == Initial && this.store == store
    {
      this.originDatabaseId := originDatabaseId;
      this.destDatabaseId := destDatabaseId;
      this.store := store;
      progress := new TransferProgress();
    }

    /** `load_saved_progress`: replace the progress by the saved one, if any. */
    method LoadSavedProgress()
      modifies this`progress
      ensures store.Some? ==> fresh(progress) && progress.Snapshot() == store.value
      ensures store.None? ==> progress == old(progress)
    {
      if store.Some? {
        progress := new TransferProgress.FromSaved(store.value);
      }
    }

    /** `save_progress(self.progress_file, self.progress.dict())`: overwrite the file. */
    method SaveProgress()
      modifies this`store
      ensures store == Some(progress.Snapshot())
    {
      store := Some(progress.Snapshot());
    }

    /** `transfer_page`: one `create_page` call for the record; its id, or `None` on any exception. */
    method TransferPage(page: NotionPage, replies: seq<Reply>) returns (newId: Option<Json>, sent: seq<Request>)
      ensures newId == CreatedId(Exchanged(replies).result)
      ensures |sent| == Exchanged(replies).attempts
      ensures forall i :: 0 <= i < |sent| ==> sent[i] == Request("POST", "pages", PagePayload(destDatabaseId, page))
    {
      var pageData := PagePayload(destDatabaseId, page);
      var result, requests, _ := CreatePage(pageData, replies);
      sent := requests;
      match result
      case Returned(JObject(fields)) =>
        newId := Get(fields, "id");
      case _ =>
        newId := None;
    }

    /** The body of the loop for a record not yet transferred: transfer it, record the outcome, save. */
    method TransferRecord(page: NotionPage, replies: seq<Reply>) returns (created: bool)
      modifies this`store, progress
      ensures created == Created(Exchanged(replies).result)
      ensures progress.Snapshot() ==
                if created then AddTransferred(old(progress.Snapshot()), page.id)
                else AddFailed(old(progress.Snapshot()), page.id, FailureMessage)
      ensures store == Some(progress.Snapshot())
    {
      var newId, _ := TransferPage(page, replies);
      created := newId.Some? && Truthy(newId.value);
      if created {
        progress.AddTransferredPage(page.id);
      } else {
        progress.AddFailedPage(page.id, FailureMessage);
      }
      SaveProgress();
    }

    /**
     * One pass of the `for result in response["results"]` loop: stop on a
     * record that cannot be built, skip one already transferred, transfer
     * any other one, record its outcome and save.
     */
    method VisitRecord(candidate: Option<NotionPage>, replies: seq<Reply>, calls: seq<string>, saves: seq<Progress>)
      returns (fatal: bool, calls': seq<string>, saves': seq<Progress>)
      modifies this`store, progress
      ensures Pass(progress.Snapshot(), calls', saves', fatal) ==
                Visit(Pass(old(progress.Snapshot()), calls, saves, false),
                      Step(candidate, Created(Exchanged(replies).result)))
      ensures |saves'| == |saves| ==> store == old(store)
      ensures |saves'| != |saves| ==> store == Some(progress.Snapshot())
    {
      calls', saves' := calls, saves;
      if candidate.None? {
        return true, calls', saves';
      }
      var page := candidate.value;
      fatal := false;
      if page.id !in progress.transferredPages {
        var created := TransferRecord(page, replies);
        calls' := calls + [page.id];
        saves' := saves + [progress.Snapshot()];
      }
    }

    /**
     * The `for result in response["results"]` loop of `run` over the
     * records built from the page. `fatal` says that building a record
     * raised, which ends the run.
     */
    method TransferResults(results: seq<Option<NotionPage>>, dest: seq<seq<Reply>>)
      returns (fatal: bool, calls: seq<string>, saves: seq<Progress>)
      modifies this`store, progress
      ensures Loop(old(progress.Snapshot()), Steps(results, dest)) == Pass(progress.Snapshot(), calls, saves, fatal)
      ensures saves == [] ==> store == old(store)
      ensures saves != [] ==> store == Some(progress.Snapshot())
    {
      ghost var start := progress.Snapshot();
      ghost var steps := Steps(results, dest);
      fatal, calls, saves := false, [], [];
      var i := 0;
      while i < |results|
        invariant i <= |results| && !fatal
        invariant Loop(start, steps[..i]) == Pass(progress.Snapshot(), calls, saves, false)
        invariant saves == [] ==> store == old(store)
        invariant saves != [] ==> store == Some(progress.Snapshot())
        modifies this`store, progress
      {
        LoopExtends(start, steps, i);
        fatal, calls, saves := VisitRecord(results[i], DestAt(dest, i), calls, saves);
        if fatal {
          LoopFatalSticky(start, steps, i + 1);
          return;
        }
        i := i + 1;
      }
      assert steps[..i] == steps;
    }

    /** `run`: load, fetch one page, and transfer each of its records not yet transferred. */
    method Run(origin: seq<Reply>, dest: seq<seq<Reply>>)
      returns (outcome: Outcome, queries: seq<Request>, calls: seq<string>, saves: seq<Progress>)
      modifies this, progress
      ensures var r := RunSpec(old(store), old(progress.Snapshot()), origin, dest);
        outcome == r.outcome && progress.Snapshot() == r.progress && store == r.store &&
        calls == r.calls && saves == r.saves
      ensures |queries| == Exchanged(origin).attempts
      ensures forall i :: 0 <= i < |queries| ==>
                queries[i] == QueryRequest(originDatabaseId, Loaded(old(store), old(progress.Snapshot())).cursor)
    {
      LoadSavedProgress();
      var response, sent, _ := QueryDatabase(originDatabaseId, progress.currentCursor, origin);
      queries, calls, saves := sent, [], [];
      match Fetched(response)
      case Unreadable =>
        outcome := Fatal;
      case NoResults =>
        outcome := NoData;
      case Results(results) =>
        progress.totalPages := |results|;
        var fatal;
        fatal, calls, saves := TransferResults(Built(results), dest);
        outcome := if fatal then Fatal else Completed(|progress.failedPages|);
    }
  }
}
