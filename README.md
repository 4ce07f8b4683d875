# JobRadar-AI core, modelled in Dafny

JobRadar-AI collects vacancies from hh.ru and stores them in a vector index. It
answers job searches in a Telegram bot. This project models the core of the
system and proves properties of it:

- **The short vacancy card** (`make_short_card_embed`), module `ShortCard`.
  It covers HTML escaping and its round trip, the field fallbacks over a
  loosely typed vacancy record, the line layout, and cutting a long
  description at a word boundary.
- **The bot's search and paging** (`retrieve`, `build_nav_kb`, `on_nav`),
  module `RunBot`:
  - the dedup loop over the search hits, keyed by link or by title and company;
  - the navigation keyboard;
  - a chat session whose card index `on_nav` clamps to the stored results.
- **The archive validator** (`vacancies_validator.py`), module `Validator`.
  It scrolls the collection page by page and looks every vacancy up on hh.ru.
  Each page's ids are split into an activate list and a deactivate list,
  which are written back in batches.
- **The role and area backfill** (`backfill_prof_name.py`), module `Backfill`.
  It covers `fetch_meta` (role names collected and de-duplicated, the area
  name) and grouping a page's points by `(roles, area)` in dict insertion
  order. Each group is written in batches.
- **The bulk upload** (`upload_to_qdrant.py`), module `Upload`. It adds the
  missing columns, builds one document per row, and embeds and upserts
  batch by batch.

Support modules:

- `Wrappers`: `Option` and `Result`.
- `PyText`: the Python `str` methods the scripts use.
- `Json`: payload values with Python truthiness, `dict.get`, `a or b or c` and `str()`.
- `HhId`: the `/vacancy/(\d+)` search.
- `HhApi`: the reply of one hh.ru request.
- `Batching`: `ceil(n / size)` batch ranges.
- `PointStore`: points, payload writes and `flush_payload`.
- `Scroll`: the scroll loop both maintenance scripts share. It reads pages until one is empty or
  the last one, splits each page, sends its writes, and stops at the first page that fails.

The environment becomes inputs:

- The hh.ru lookup is a function from a vacancy id to a `Reply`.
- The scroll is a sequence of pages.
- The search result is a sequence of hits.
- The embedding model is a function from a document to a vector.
- The run's timestamp is a string parameter.

Each loop in the scripts is a Dafny method with invariants. Most of these
methods are proved equal to a reference function on values, and the
properties of those functions are proved as lemmas. The methods that change
state are specified by their new state instead: `Upload.Frame.EnsureColumns`,
`Upload.Frame.UpsertChunk`, `RunBot.ChatSession.Store` and
`RunBot.ChatSession.OnNav`.

`retrieve` appends an item before it tests `len(items) >= k`. A non-positive
`k` therefore still returns one item when any hit has a key
(`RunBot.RetrieveStops`).

## Model

| member | source | states |
|---|---|---|
| ShortCard.EscapeHtmlEncodes | app/make_short_card.py:4-10 | The three `replace` passes, `&` first, encode each `&`, `<` and `>` exactly once. A later pass never re-escapes an entity written by an earlier one. |
| ShortCard.EscapeHtmlSafe | app/make_short_card.py:4-10 | Escaped text never contains `<` or `>`. `None` and `""` escape to `""`. |
| ShortCard.EscapeRoundTrip | app/make_short_card.py:4-10 | Unescaping `&lt;`, `&gt;` and then `&amp;` gives back the original text for every input, so escaping loses nothing. |
| ShortCard.EscapeIdentity | app/make_short_card.py:4-10 | Text without `&`, `<` or `>` is left unchanged. |
| ShortCard.EncodeLonger | app/make_short_card.py:4-10 | Escaping never shortens a text. |
| ShortCard.ShortenDescriptionSpec | app/make_short_card.py:31-34 | Descriptions within `max_len` are kept. Longer ones become a prefix plus `…`, cut after the last space among the first `max_len` characters (that space dropped) or at exactly `max_len` without one. A negative `max_len` counts from the end. |
| ShortCard.ChosenSalary | app/make_short_card.py:17-19 | The salary is `salary_text or salary_str or salary`, replaced by `None` when that value is a dict. It is truthy exactly when a first truthy value exists and is not a dict. |
| ShortCard.CardLinesShape | app/make_short_card.py:24-40 | Layout by position: the title; the company iff non-empty; the salary iff truthy; a blank line; the description, or the placeholder exactly when the raw description is empty; then a blank line and the call to action iff there is a URL. |
| ShortCard.CardLinesMarkupSafe | app/make_short_card.py:22-40 | Whatever the vacancy holds, the only markup in any card line is the bold tag the card writes around the title or the salary. |
| ShortCard.BuildLines | app/make_short_card.py:24-40 | The appends build exactly the `CardLines` layout. |
| ShortCard.MakeShortCardEmbed | app/make_short_card.py:12-42 | The card raises exactly when a chosen text field is not a string. Otherwise its text is the stripped newline join of the layout, and the debug map is `{"mode": "full_description"}`. |
| Json.Or | app/run_bot.py:88-94 | `a or b or c` is the first truthy operand, else the last one. It is truthy iff some operand is. |
| Json.TextFieldFirst | app/make_short_card.py:13-15 | The first truthy key decides the field: its string, stripped, or an AttributeError when it holds anything else. |
| Json.TextFieldDefault | app/make_short_card.py:13-15 | With no truthy key the field is the stripped default. |
| PyText.StripSpec | app/run_bot.py:76-78 | `strip()` returns the contiguous slice `s[i:j]` of its input that begins with the first non-whitespace character and ends after the last one; everything before `i` and from `j` on is whitespace. |
| PyText.StripEmpty | app/make_short_card.py:42 | `strip()` gives `""` exactly when the text is all whitespace. |
| PyText.LowerSpec | app/run_bot.py:77-78 | `lower()` keeps the length, leaves no upper-case letter (ASCII, Latin-1, basic Cyrillic), leaves every other character as it was, and is idempotent. |
| PyText.RsplitHead | app/make_short_card.py:33 | `rsplit(" ", 1)[0]` is the text before the last separator, or the whole text when there is none. |
| PyText.SlicePrefix | app/make_short_card.py:33 | `s[:n]` is a prefix of `s` of length `min(n, len(s))` for non-negative `n`. |
| HhId.ExtractHhId | app/vacancies_validator.py:23-27 | `None` for an empty URL or when the pattern matches nowhere. Otherwise the result is the digit run captured at the leftmost case-insensitive match of `/vacancy/` followed by a digit. |
| HhId.HhIdIsNumber | app/backfill_prof_name.py:21-25 | A found id is a non-empty run of digits taken from the URL right after the leftmost marker. |
| HhId.FindMatch | app/vacancies_validator.py:26 | `re.search` finds the leftmost match from a position, and no match lies before it. |
| HhApi.Body | app/vacancies_validator.py:38-39 | A reply's body is usable iff the reply has a 2xx status and a JSON object body. It is then that object's fields. |
| Validator.CheckArchived | app/vacancies_validator.py:30-42 | Succeeds iff the status is 404, or 2xx with an object body. The vacancy is inactive iff the status is 404 or `archived` is truthy. The reason is `404`, `archived_true` or `active` accordingly. |
| Validator.PointVerdictSpec | app/vacancies_validator.py:84-103 | Only an unreadable URL ends the run. A point is checked iff its URL holds an id and the lookup succeeds. It is deactivated iff, in addition, the lookup says inactive. |
| Validator.TallySplits | app/vacancies_validator.py:84-103 | A page runs to its end iff no point fails. Then the two lists are exactly the activated and deactivated points in page order, skipped counts the rest, `checked` is the size of both lists, and `checked + skipped` is the page size. |
| Validator.SplitPage | app/vacancies_validator.py:81-105 | The inner loop computes the page's `Tally`. |
| Validator.PageWritesCover | app/vacancies_validator.py:107-121 | A page's writes update the activate list, then the deactivate list, each id once and in order. |
| Validator.PageWritesMark | app/vacancies_validator.py:107-121 | Every write is one of the two markings, stamped with the run's `now`. |
| Validator.FlushPage | app/vacancies_validator.py:107-121 | The two `flush_payload` calls send each non-empty list in batches. |
| Validator.PageWritesPaired | app/vacancies_validator.py:107-121 | The writes split after `ceil(len(activate) / batch)` batches. Before the split every write carries the active marking and together they update exactly the activate list; after it every write carries the inactive marking and together they update exactly the deactivate list. |
| Validator.ValidationBalanced | app/vacancies_validator.py:54-129 | A run that ends normally prints `points = checked + skipped` and `checked = activated + deactivated`. Every write of any run marks ids with `now`. |
| Scroll.Scrolled | app/vacancies_validator.py:67-77 | The loop reads the pages up to the first empty one, or all of them: every page read is non-empty, and the page after them, if any, is empty. |
| Scroll.RunWrites | app/vacancies_validator.py:67-124 | A run fails iff some page it reads fails to split. It then fails with the first such page's error, having sent exactly the writes of the pages before it. Otherwise it sends the writes of every page read, in page order. |
| Validator.ValidationWrites | app/vacancies_validator.py:67-124 | The same for the validator: the run fails iff the tally of a page it reads fails, with the first such error and the earlier pages' writes; otherwise the writes are every page's batches in page order. |
| Validator.ValidationJustified | app/vacancies_validator.py:81-121 | However the run ends, every id written active was judged active, and every id written inactive was judged inactive, on a page that was read (one of the pages before the scroll stopped). |
| Validator.Validate | app/vacancies_validator.py:54-129 | `main` computes `Validation`: the counters, or the error that stopped the run, plus every write sent. |
| PointStore.FlushPayload | app/vacancies_validator.py:45-51 | `flush_payload` sends `ids[i:i+batch]` for each `i` in `range(0, len(ids), batch)`. |
| PointStore.BatchesCover | app/backfill_prof_name.py:64-70 | Together the batches send every id exactly once, in order. |
| PointStore.BatchesShape | app/backfill_prof_name.py:64-70 | There are `ceil(len(ids) / batch)` writes, each with 1 to `batch` ids and the given payload. |
| Batching.CeilDiv | app/upload_to_qdrant.py:65 | `math.ceil(n / size)` is the least number of batches of `size` that hold `n` items. |
| Batching.BatchesTile | app/upload_to_qdrant.py:66-68 | The ranges `[s*size, min((s+1)*size, n))` are non-empty and at most `size` long, each starts where the previous ends, and the last ends at `n`. |
| Backfill.RoleItems | app/backfill_prof_name.py:40-42 | `roles or []` iterates nothing when falsy and a list's items for a list. A number or boolean raises TypeError. |
| Backfill.RoleName | app/backfill_prof_name.py:43-45 | `(rr or {}).get("name")` fails iff `rr` is truthy and not a dict. It contributes nothing iff `rr` is falsy or its `name` is falsy; otherwise it contributes `str(name).strip()`. |
| Backfill.CollectRoleNames | app/backfill_prof_name.py:40-45 | The collection loop computes `RoleNames`: the names in item order, or the first error. |
| Backfill.RoleNamesFromItems | app/backfill_prof_name.py:42-45 | Every collected name comes from a dict item with a truthy `name`. There are no more names than items. |
| Backfill.DedupSpec | app/backfill_prof_name.py:47-53 | The de-duplicated list has no repeats and holds exactly the input's names. |
| Backfill.DedupPrefix | app/backfill_prof_name.py:47-53 | Order is preserved: de-duplicating a prefix gives a prefix of the result. |
| Backfill.UniqueRoles | app/backfill_prof_name.py:47-53 | The `seen`-set loop computes `Dedup`. |
| Backfill.MetaOfSpec | app/backfill_prof_name.py:28-61 | A 404 gives `(None, None)`. Any other success needs a 2xx object body and reads `area.name`. Returned roles are non-empty and distinct. |
| Backfill.FetchMeta | app/backfill_prof_name.py:28-61 | `fetch_meta` computes `MetaOf`. |
| Backfill.KeyOf | app/backfill_prof_name.py:119-127 | A point is skipped iff there are no roles and the area is falsy. Otherwise it is grouped under the `", "`-joined roles and `area or ""`. Hashing fails iff the area is a truthy list or dict. |
| Backfill.PointOutcomeSpec | app/backfill_prof_name.py:101-127 | An unreadable URL ends the run. A URL without an id skips the point as `no_hh`. A failed lookup skips it as `http`. Otherwise the point is classified by `KeyOf` on the fetched roles and area. |
| Backfill.InsertSpec | app/backfill_prof_name.py:127 | `setdefault(key, []).append(id)` appends to that key's entry only, lists a new key once at the end of the insertion order, and grows the id count by one. |
| Backfill.StepSpec | app/backfill_prof_name.py:101-127 | Each successful point increments exactly one counter and adds its id only under its own key. |
| Backfill.GroupOk | app/backfill_prof_name.py:101-127 | A page runs to its end iff every point is classified without error. |
| Backfill.GroupSpec | app/backfill_prof_name.py:99-127 | After a page the three counters sum to its size. Each dict entry holds exactly the ids grouped under its key, in page order. No more ids are grouped than checked. |
| Backfill.GroupPage | app/backfill_prof_name.py:99-127 | The inner loop computes `Group`. |
| Backfill.GroupWritesCover | app/backfill_prof_name.py:129-136 | The group writes update each grouped id once, group by group in insertion order, and `updated` grows by their number. |
| Backfill.GroupWritesPaired | app/backfill_prof_name.py:129-136 | The writes are the groups' batches one group after another. Each group's segment updates exactly that group's ids, and every write in it carries that group's roles and area. The last segment ends where the writes end. |
| Backfill.GroupWritesFrom | app/backfill_prof_name.py:129-136 | Every write carries the payload of one group and updates only ids of that group. |
| Backfill.FlushGroups | app/backfill_prof_name.py:129-136 | The flush loop sends `GroupWrites` and adds the grouped id count to `updated`. |
| Backfill.BackfillWrites | app/backfill_prof_name.py:84-139 | The run fails iff grouping a page it reads fails, with the first such error and the earlier pages' writes. Otherwise the writes are every page's group batches in page order. |
| Backfill.BackfillJustified | app/backfill_prof_name.py:99-136 | However the run ends, every id it updates was grouped, on a page that was read (one of the pages before the scroll stopped), under the roles and area written to it. |
| Backfill.BackfillBalanced | app/backfill_prof_name.py:73-144 | A normally ending run prints `points_seen = checked + skipped_no_hh + skipped_http` and `updated <= checked`. |
| Backfill.BackfillAll | app/backfill_prof_name.py:73-144 | `main` computes `Backfilling`: the counters or the error, plus every write sent. |
| Upload.DocText | app/upload_to_qdrant.py:28 | A row's document is the filled title, `". "`, then the filled description. |
| Upload.RowPayloadSpec | app/upload_to_qdrant.py:47-54 | A row's payload has exactly the five parser fields, each that row's raw cell. |
| Upload.Frame.EnsureColumns | app/upload_to_qdrant.py:24-26 | Afterwards the columns are the old ones plus the five parser columns. Old columns are unchanged, new ones are all `""`, and the row count is kept. |
| Upload.Frame.UpsertChunk | app/upload_to_qdrant.py:44-62 | Vector `j` of a chunk is paired with the payload of row `start_idx + j`. |
| Upload.Frame.UploadBatch | app/upload_to_qdrant.py:67-70 | One batch sends exactly rows `a` to `b` of a complete upload. |
| Upload.Frame.UploadRows | app/upload_to_qdrant.py:64-70 | There are `ceil(n / batch)` upserts. Upsert `s` holds exactly the points of rows `s*batch` to `min((s+1)*batch, n)`, so together they send every row once and in order, each row with its own document's vector. |
| Upload.Frame.Run | app/upload_to_qdrant.py:22-70 | The row count is kept. The columns are the old ones plus the missing parser columns: old columns are unchanged and the added ones are blank. Upsert `s` then holds rows `s*batch` to `min((s+1)*batch, n)` of the completed table. |
| Upload.Encode | app/upload_to_qdrant.py:69 | `model.encode(docs[a:b])` gives one vector per document, each from its own text. |
| RunBot.ProjectSpec | app/run_bot.py:75-80 | The key is the stripped link when non-empty, otherwise lower-cased `title::company`, so it is never empty. A hit fails iff one of its three text fields is not a string. |
| RunBot.DisplaySpec | app/run_bot.py:85-95 | Each item field is the first truthy of its keys, else its default: `-` for title, company and experience, empty for description, snippet and salary. The url is the stripped link, or `-` when that is empty. |
| RunBot.RetrieveErr | app/run_bot.py:74-97 | `retrieve` raises iff a hit's fields are unreadable while fewer than `k` items (or none) have been collected from the hits before it. It then raises with the first such hit's error, and every earlier hit is readable. It cannot raise when every hit's fields are readable. |
| RunBot.RetrieveIgnoresRest | app/run_bot.py:96-97 | Once `k` items (at least one) are collected, any further hits, readable or not, change nothing. |
| RunBot.RetrieveKept | app/run_bot.py:72-99 | Items come from hits in search order under pairwise distinct keys. Each is the projection of the first hit with its key. |
| RunBot.RetrieveStops | app/run_bot.py:96-97 | At most `k` items are returned (one when `k <= 0`), and fewer only when every hit was looked at. Every hit looked at has its key among the returned ones. |
| RunBot.Retrieve | app/run_bot.py:72-99 | The `seen`/`continue`/`break` loop computes `Retrieval`. |
| RunBot.BuildNavKb | app/run_bot.py:102-111 | The first row is always prev, `idx+1/total`, next. A second row with the link exists iff the url is a string starting with `http`. |
| RunBot.NavTargetSpec | app/run_bot.py:164-170 | From a card in range the move stays in range. `next` and `prev` move one step, clamped at the ends. Other data keeps the index. |
| RunBot.ChatSession.Store | app/run_bot.py:126-137 | No results leave the chat as it was. Otherwise the results are stored, the index is 0, and the first card is shown. |
| RunBot.ChatSession.OnNav | app/run_bot.py:153-176 | Nothing changes iff the data is not `nav:`, is `nav:noop`, or there are no results. Otherwise the index moves to the clamped target and that card is shown. The results are never changed. |
| RunBot.ChatSession.constructor | app/run_bot.py:164 | A fresh chat has no results and index 0. |

## Left out

- HTTP, the vector index client, Telegram I/O, metrics, logging, `time.sleep` and the clock are not modelled. Their results become parameters: lookup replies, scroll pages, search hits, the timestamp string and the embedding function.
- The query embedding and the filter of `retrieve`, the collection creation in the upload, and the CSV existence check and `read_csv` are external calls and are not modelled.
- The similarity score is opaque (a `Json` value carried through).
- Random UUID point ids of the upload are not modelled.
- CSV cells are text or missing. Numeric columns are not modelled.
- `RunBot.ChatSession.OnNav`: the card text of `make_short_card_embed` for the shown item and the `[:3900]` cut are not computed. The screen is the item plus its keyboard.
- `RunBot.ChatSession.OnNav`: requires the stored index to point at a result. A negative or stale index, where the script would raise IndexError or show an unexpected card, is ruled out by `Valid`.
- `RunBot.Retrieve`: generic over the projection function. The bot uses `Project`, which the second ensures covers.
- `Validator.Validate`: generic over the per-point judge; the script uses `JudgeBy(fetch)`.
- `Backfill.BackfillAll`: generic over the per-point classifier; the script uses `ClassifyBy(fetch)`.
- `PointStore.FlushPayload`: requires a batch size of at least 1. A zero `QDRANT_UPDATE_BATCH` raises ValueError in `range`, and a negative one sends nothing; neither is modelled.
- `Upload.Frame.UploadRows`: requires `BATCH_SIZE >= 1`. Zero would divide by zero in `math.ceil`, and a negative size makes `range` empty so nothing is uploaded; neither is modelled.
- `HhId.ExtractHhId`: `\d` is taken as the ASCII digits, not every Unicode decimal digit.
- `PyText.Lower`: `str.lower` is modelled for ASCII, Latin-1 and basic Cyrillic letters only.
- `Json` keys are compared as strings. Python's cross-type equality of dict keys (`1 == True == 1.0`) is not modelled.
- A run that raises prints no counters. The model returns the error together with the writes already sent.
- The `model` argument of `make_short_card_embed` is unused by the script and is not modelled.
