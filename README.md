# notion-transfer-bot, modelled in Dafny

The bot copies the records of one Notion database into another and can be
resumed. It has four parts, and this project models each one and proves its
properties:

- **`TransferProgress`** (`models.dfy`). It keeps the ordered list of
  transferred ids, the map from failed id to error message, the page count and
  the cursor. The add methods update the object in place, and the completion
  percentage is derived from it.
- **`_make_request`** (`api.dfy`). It sends one request up to `MAX_RETRIES`
  times. A 429 reply sleeps for `Retry-After` (or `RATE_LIMIT_DELAY`) and
  retries. A failed request sleeps `RETRY_DELAY` and retries, unless it was the
  last attempt, in which case the error is raised. A success returns its body.
  `query_database` and `create_page` build their requests on top of it.
- **`NotionTransfer`** (`transfer.dfy`). `run` loads the saved progress, makes
  one query and walks the returned records. It skips ids already transferred,
  creates each of the others with `transfer_page`, marks it transferred or
  failed ("Ошибка при создании страницы"), and saves the progress after every
  attempt.
- **`validate_token` and `validate_database_id`** (`settings.dfy`), together
  with the retry constants 3, 1 and 5.

`json.dfy` holds decoded JSON values. `Get` looks up a key and the last
duplicate wins. `Truthy` is Python truthiness. `wrappers.dfy` holds `Option`.

The outside world is abstract:

- **Replies.** Each API call is a script of replies, and `replies[i]` answers
  attempt `i`. An attempt past the end of the script gets a connection failure.
- **Sleeps.** Each sleep becomes a number of seconds appended to `waits`.
- **The destination.** `dest[k]` is the reply script of the create call for the
  record at position `k` of the page.
- **The progress file.** It is the field `store`, where `None` means missing or
  empty. Saving overwrites it.

The methods are proved against pure functions:

- `MakeRequest` is proved against `Exchanged`, the retry loop written as the
  recursion `Retrying`.
- `TransferResults` is proved against `Loop`, a fold of `Visit` over the
  page's `Step`s.
- `Run` is proved against `RunSpec`.

The lemmas state the source's promises about those functions.

Behaviour of the code worth knowing (the model follows the code):

- A call that runs out of attempts on a 429 does not raise. It evaluates to
  `None`, so `response["id"]` raises, `transfer_page` returns `None` and the
  record is marked failed.
- A failed record always gets the fixed message, not the error text.
- Only one page is queried, and the cursor is never advanced.
- `children` is read but never sent to the destination.
- An exception while building a record (a missing `"id"`, say) is not caught
  per record. It ends the whole run through the handler in `run`.

## Model

| member | source | states |
|---|---|---|
| Json.Get | main.py:52 | `None` exactly when no field has the key; otherwise the value of a field with that key that no later field overrides |
| Settings.StartsWith | config/settings.py:40 | true exactly when the prefix fits in the string and equals its first characters |
| Settings.ValidateToken | config/settings.py:37-42 | false for an unset or empty token; for a token starting with "secret_", true exactly when it is longer than 50 characters; false for any other token |
| Settings.ValidateDatabaseId | config/settings.py:45-48 | false for an unset or empty id; otherwise true exactly when it is longer than 30 characters |
| Models.AddTransferred | notion/models.py:17-20 | the count, the failed map and the cursor are unchanged; the old list is a prefix of the new one; the id is present; nothing else is added; the length grows by one exactly when the id was absent |
| Models.AddFailed | notion/models.py:22-24 | the count, the list and the cursor are unchanged; `failed[id]` is the new message; the keys gain exactly `id`; every other entry keeps its message |
| Models.Percentage | notion/models.py:26-31 | 0 for a zero page count; otherwise percentage × count = transferred × 100, and 0..100 while transferred ≤ count |
| Models.AddTransferredIdempotent | notion/models.py:19 | adding an id a second time changes nothing |
| Models.AddTransferredKeepsNoDuplicates | notion/models.py:19-20 | a duplicate-free list stays duplicate-free |
| Models.PercentageOfFourInTen | notion/models.py:31 | 4 of 10 is 40 percent |
| Models.TransferProgress.constructor | notion/models.py:12-15 | a fresh progress has count 0, empty list and map, and no cursor |
| Models.TransferProgress.FromSaved | main.py:32 | the fields are exactly the saved values |
| Models.TransferProgress.AddTransferredPage | notion/models.py:17-20 | the new state is `AddTransferred` of the old one; a duplicate-free list stays duplicate-free |
| Models.TransferProgress.AddFailedPage | notion/models.py:22-24 | the new state is `AddFailed` of the old one |
| Models.TransferProgress.ProgressPercentage | notion/models.py:26-31 | 0 for a zero page count; otherwise percentage × count = transferred × 100, as `Models.Percentage` |
| Api.ContinuedIsRetrying | notion/api.py:46-74 | the loop run from its current counter and sleeps ends where the recursive definition says, with those sleeps in front |
| Api.MakeRequest | notion/api.py:45-74 | the result, the number of requests sent and the sleeps are those of `Exchanged`; every attempt sends the same request |
| Api.QueryBody | notion/api.py:92 | an object whose only possible field is `start_cursor`, present and carrying the cursor exactly when the cursor is given and non-empty; otherwise the body is `{}` |
| Api.QueryDatabase | notion/api.py:91-93 | one retried POST to `databases/<id>/query` with that body; result and sleeps as `Exchanged` |
| Api.CreatePage | notion/api.py:105 | one retried POST of the page data, unchanged, to `pages`; result and sleeps as `Exchanged` |
| Api.RetryingShape | notion/api.py:46-74 | from any counter: attempts fit the budget; one sleep per retried attempt, equal to that reply's backoff; the last reply decides the result; raising and falling through use the whole budget |
| Api.AttemptsBounded | notion/api.py:46-48 | a call makes between 1 and `MAX_RETRIES` attempts |
| Api.ReturnsFirstSuccess | notion/api.py:65-66 | if attempt k is the first success, the call returns its body after k+1 attempts and k sleeps |
| Api.ReturnsFrom | notion/api.py:48-66 | the same from any loop counter |
| Api.ReturnedIsFirstSuccess | notion/api.py:65-66 | a returned body is the reply of the last attempt, and no earlier attempt succeeded |
| Api.AllRateLimitedFallsThrough | notion/api.py:48-63 | all attempts rate limited gives `None` after `MAX_RETRIES` attempts, each followed by its Retry-After or default sleep |
| Api.RaisesIffLastAttemptFails | notion/api.py:68-74 | the call raises exactly when nothing before the last attempt succeeded and the last request failed; it raises that error |
| Api.FallsThroughIffLastAttemptRateLimited | notion/api.py:48-63 | the call evaluates to `None` exactly when nothing before the last attempt succeeded and the last one was a 429; it then slept after every attempt |
| Api.RateLimitRecovery | notion/api.py:58-66 | a 429 with Retry-After 2, then a success: one 2-second sleep, then the body |
| Api.RetryExhaustion | notion/api.py:68-74 | three failures: two 1-second sleeps, then the error is raised |
| Transfer.PagePayload | main.py:46-49 | the payload's parent carries the destination database id, its properties are the record's, and there is no `children` |
| Transfer.RunSpec | main.py:58-111 | the cursor is as loaded; without records, nothing changes and nothing is saved; with records, the page count is their number |
| Transfer.ToPageReadsFields | main.py:79-83 | a built record takes its id and properties from the entry; a missing `children` becomes the empty list; an entry that is not an object, or lacks `id` or `properties`, is not built |
| Transfer.CreatedIdOnlyFromReturnedObject | main.py:51-56 | an id comes only from an object the create call returned; a raised or `None` call never counts as created |
| Transfer.FetchedCases | main.py:64-78 | records come only from a non-empty `results` list; no data exactly when `results` is missing or falsy |
| Transfer.LoopExtends | main.py:78 | one more record is one more loop pass |
| Transfer.LoopFrame | main.py:74-99 | the loop keeps the page count and the cursor; the transferred list only grows and stays duplicate-free; failed entries are never removed |
| Transfer.LoopSavesEach | main.py:87-99 | one save per attempted record; each save already holds that record's outcome; the last save is the final progress |
| Transfer.LoopSkipsTransferred | main.py:85-87 | an id already transferred is never sent to `create_page` |
| Transfer.LoopCovers | main.py:78-99 | after a completed loop, every record of the page is transferred or has a failed entry |
| Transfer.LoopRoutes | main.py:89-96 | every attempted id ends transferred or failed with the fixed message; every failed entry has that message or predates the run |
| Transfer.LoopFatalSticky | main.py:78-111 | once building a record has raised, later records change nothing |
| Transfer.LoopNothingPending | main.py:85-87 | a page of already-transferred records causes no call, no save and no change |
| Transfer.StepIds | main.py:79-80 | the ids of a page of built records, in order |
| Transfer.Pending | main.py:85 | an id is pending exactly when it occurs in the page and is not already done |
| Transfer.PendingKeepsOrder | main.py:78-87 | two pending records keep their page order among the pending ids, so the create calls follow the page order |
| Transfer.BuiltDistinctPrefix | main.py:78 | dropping the last record keeps the page built and distinct, and the last id does not occur earlier |
| Transfer.PendingNoDup | main.py:85-89 | on a page of distinct ids no id is pending twice |
| Transfer.LoopCallsEachPendingOnce | main.py:78-89 | on a built page of distinct ids, the loop completes; its `create_page` calls are exactly the ids not yet transferred, with no id called twice, in page order; only those ids become transferred |
| Transfer.PendingOfNothing | main.py:85 | with nothing done, every id is pending |
| Transfer.OneAttemptPerRecord | main.py:78-89 | from an empty list, exactly one creation attempt per record, in order |
| Transfer.ResumeNeverRecreates | main.py:30-99 | a run started from the file a previous run left never re-creates a record that run transferred, or one the file lists as transferred |
| Transfer.RunStoreIsLastSave | main.py:99 | after a run the file holds the last saved snapshot, or is as it was when nothing was saved |
| Transfer.EmptyPageChangesNothing | main.py:69-71 | a returned object whose `results` is the empty list, whatever other keys it carries: no call, no save, progress as loaded |
| Transfer.NotionTransfer.constructor | main.py:22-26 | a fresh transfer has a fresh default progress |
| Transfer.NotionTransfer.LoadSavedProgress | main.py:28-32 | the progress is replaced by the saved one exactly when there is one |
| Transfer.NotionTransfer.SaveProgress | main.py:99 | the file holds the current progress |
| Transfer.NotionTransfer.TransferPage | main.py:35-56 | the returned id is the `id` of the object the create call returned, or `None`; every attempt sends the payload |
| Transfer.NotionTransfer.TransferRecord | main.py:89-99 | the record is marked transferred exactly when the created id is truthy, otherwise failed with the fixed message, and then saved |
| Transfer.NotionTransfer.VisitRecord | main.py:78-99 | one loop pass changes the state as `Visit` says, and the file changes exactly when a save happened |
| Transfer.NotionTransfer.TransferResults | main.py:78-99 | the final progress, calls, saves and crash flag are those of `Loop`; the file holds the final progress when anything was saved |
| Transfer.NotionTransfer.Run | main.py:58-111 | the outcome, progress, file, calls and saves are those of `RunSpec`; exactly one query call is made, with the loaded cursor |

## Left out

- HTTP, headers, URLs, `requests` and the Notion API itself: each reply is an abstract value. `time.sleep` is not modelled; each sleep is recorded as a number of seconds.
- Api.RateLimitWait: a `Retry-After` header that is not a non-negative integer is not modelled. In the source, `int(...)` or `time.sleep` then raises an exception that is not a `RequestException`, and it escapes the retry loop.
- `params` of `_make_request`: the two callers never pass it.
- The JSON file I/O of `utils/helpers.py`: the file is the `store` field. Writes are not claimed to be atomic, since the source truncates the file in place. A file holding `{}` reads as no saved progress.
- Logging (`utils/logger.py`, every log line and the formatting of `progress_percentage`), and what `config/settings.py` does at import time (`load_dotenv`, `mkdir`, the `.gitignore` scan, reading the environment, the warnings).
- `main()`'s check of the environment variables and `sys.exit`: the crash path of `run` is the `Fatal` outcome.
- The script `backup/transfer_notion_data.py`: it is not part of this model.
- Pydantic: coercion and validation are reduced to exact JSON types. A record is built when `id` is a string, `properties` an object and `children` absent, `null` or a list of objects. Anything else is treated as a validation error.
- Floating point: `progress_percentage` is computed over the reals, and JSON numbers are integers.
- Multi-page queries: the code makes one query and never writes `current_cursor`, and so does the model.
- Transfer.RunSpec: the page count written into memory just before `run` crashes on an unusable `results` value is not modelled. The process exits at that point, so nothing can observe it.
- Transfer.NotionTransfer.TransferResults: records are built by `Built` before the loop, not inside it. Building a record is pure, and the loop stops at the first record that could not be built, so the calls, saves and final state are the same.
- The order of keys in `failed_pages`: a map has no order.
