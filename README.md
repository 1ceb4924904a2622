# Bible chapter scraper: bookkeeping model

This project models, in Dafny, the bookkeeping of a scraper for an online Bible reader. The
scraper lists the site's books and chapters from a drop-down menu. It fetches each chapter's text
and audio, joins the fetch results back to the chapters by URL, and saves each chapter's files
and an index of records.

The browser (Selenium), the HTML parser (BeautifulSoup), the HTTP client and the file system
are not modelled. What they return is an input to the model:

- A page visit is a `Visit` value. It either raised an exception with a message, or it rendered.
  A rendered visit has the `align-left` span texts of the `main` tag (or no `main` tag), and the
  response to the audio download (or no `video.audio-player` with a `src`).
- A run over many URLs takes a function `visitOf` from URL to `Visit`.
- `urljoin` is a `join` parameter.

The project has four files:

- `wrappers.dfy`:
  - module `Wrappers`: `Option` and `Result`.
  - module `Seqs`: two generic facts about sequences, used by the permutation proofs.
- `strings.dfy`, module `Strings`:
  - the first occurrence of a pattern;
  - decimal rendering of naturals and its inverse;
  - POSIX `os.path.join` for two components.
- `scraper_v1.dfy`, module `ScraperV1` (the fetcher, `scraper_v1.py`):
  - the result dictionaries, as a datatype with one optional field per key;
  - their four shapes;
  - text extraction;
  - the module-global `request_count` as the class `ScraperState`, with the sequential and the
    async fetch as methods that update it;
  - the pause schedule in both variants;
  - the sequential batch loop.
- `scrape_bot.dfy`, module `ScrapeBot` (the bot, `scrape_bot.py`):
  - the class `BibleScraperBot` with its fields `siteUrl`, `baseUrl`, `driverPath` and
    `chaptersMetadata`;
  - the site base cut at the first `/bible`;
  - menu parsing over abstract links;
  - gathering chapter URLs;
  - the left join `merge_list_on_url` (last write wins in the URL map);
  - the per-chapter records and paths of `process_and_save_data`;
  - the `scrape_data` loop. It skips the first 39 groups, names folders `testament_<i>` and
    names every entry after the first processed group.

Each loop in the source that builds a list or a string is a `method` with a `while` loop. The
methods behind `Joined`, `Merged`, `SaveAll`, `Run` and `GroupOutcomes` are proved against
those functions of their inputs, and lemmas about the functions state what the source
promises. `GatherUrls`, `ParseDropDown`, `LoadBaseUrl` and `FetchDataNonasync` state their
results element by element instead.

Exceptions that end a run are `Failure` values rather than crashes:

- the `KeyError` raised when a merged entry has no `"text"`;
- the `TypeError` raised when writing `None` audio;
- the `IndexError` raised by `fetch_data_nonasync` on an empty list;
- the `AttributeError` raised when `chapters_metadata` was never set.

Three consequences of the code shape the model:

- **HTTP failures abort the run.** A download that answers other than 200 gives a result with
  `"chapter_url"` and `"error"`. The join keeps it, because it matches on `"chapter_url"`. Saving
  it then reads `data['text']` and raises `KeyError`, which ends `scrape_data` before
  `global_metadata.json` is written (`HttpFailureAbortsGroup`, `HttpFailureAbortsRun`). One
  failed chapter therefore loses its whole group's records and the rest of the run. The files
  already written for the group's earlier chapters, and an empty `content.txt` for the failing
  one, stay on disk with no index entry.
- **No-audio results never reach the save.** A page without an audio player gives
  `{url, text, audio: None}`. The join drops it, because it has `"url"` rather than
  `"chapter_url"` (`BatchKeptIff`). So writing `None` audio can happen only for entries built
  some other way. The model still has that error path (`AudioNotBytes`).
- **The sequential pause comes one call late.** The test runs in `finally`, on the count
  *before* that call's increment. So the long pause of the sequential fetcher runs in the 26th
  call, after its fetch, and n calls from a fresh counter pause ⌊(n−1)/25⌋ times. 25 calls
  from a fresh counter do not pause at all.

## Model

| member | source | states |
|---|---|---|
| ScrapeBot.BaseUrl | scrape_bot.py:37 | the base is a prefix of the URL with no `/bible` inside it; either it is the whole URL or `/bible` starts right after it; it is the whole URL iff `/bible` never occurs |
| ScrapeBot.BibleScraperBot.constructor | scrape_bot.py:35-39 | stores the site URL, the driver path and the base cut at the first `/bible`; chapter metadata is not yet set |
| ScrapeBot.BibleScraperBot.ParseDropDown | scrape_bot.py:95-109 | one chapter config per link, in order, with the span text as id and the href resolved against the base; the group is named by the heading |
| ScrapeBot.BibleScraperBot.LoadBaseUrl | scrape_bot.py:48-93 | if the page never became ready, the metadata is left as it was; otherwise it is one group per book div, in order, each parsed as above; the URL fields are unchanged |
| ScrapeBot.BibleScraperBot.GatherUrls | scrape_bot.py:186-191 | exactly the chapters' URLs, same length and order |
| ScrapeBot.UrlsOfAt | scrape_bot.py:186-191 | the URL list of a group has one entry per chapter, in order, each that chapter's URL |
| ScrapeBot.ChapterMapLastWins | scrape_bot.py:169 | the URL map has exactly the configs' URLs as keys, and maps each to the last config carrying that URL |
| ScrapeBot.Tagged | scrape_bot.py:178-181 | a kept entry gets the chapter id of its URL's config; every other field is copied unchanged, and an existing chapter id is overwritten |
| ScrapeBot.BibleScraperBot.MergeListOnUrl | scrape_bot.py:165-184 | the loop builds exactly the left join `Merged` of the entries onto the URL map of the configs, entries with `"error"` included |
| ScrapeBot.MergeIsSubsequence | scrape_bot.py:172-184 | the join output is the tagged entries at strictly increasing input positions, and a position is kept iff its entry has a `"chapter_url"` that is a key of the map |
| ScrapeBot.MergedLength | scrape_bot.py:167-184 | the join never outputs more entries than it was given |
| ScrapeBot.MergedAppend | scrape_bot.py:172-184 | the join of a concatenation is the concatenation of the joins |
| ScrapeBot.MergedPermutation | scrape_bot.py:172-184 | the same results in another order join to the same entries in another order |
| ScrapeBot.BatchKeptIff | scrape_bot.py:173-182 | a fetched result survives the join iff its visit reached the audio download (200 or not) and its URL is a configured chapter URL; results without an audio player, or whose visit raised, are dropped |
| ScrapeBot.SaveEntry | scrape_bot.py:144-160 | saving an entry succeeds iff it has a chapter id, text, audio bytes and a chapter URL; the record then copies the id and URL and holds the two file paths |
| ScrapeBot.SaveAllStep | scrape_bot.py:144-160 | after a failed prefix, saving one more entry raises the same error |
| ScrapeBot.SaveAllSticky | scrape_bot.py:144-160 | once saving raises, no later entry is saved and the error is that of the first bad entry |
| ScrapeBot.SaveAllOk | scrape_bot.py:143-162 | saving succeeds iff every entry is savable, and then yields one record per entry, in order |
| ScrapeBot.SaveAllAppend | scrape_bot.py:143-162 | saving a concatenation succeeds iff saving both parts does, and yields their records in sequence |
| ScrapeBot.SaveAllPermutation | scrape_bot.py:143-162 | saving the same entries in another order succeeds or fails alike, and yields the same records in another order |
| ScrapeBot.MergeThenSaveOrderFree | scrape_bot.py:126-128 | the join followed by the save does not depend on the order of the fetch results: same outcome, same records |
| ScrapeBot.BibleScraperBot.ProcessAndSaveData | scrape_bot.py:138-162 | the loop returns exactly `SaveAll`: the records in order, or the first error raised |
| ScrapeBot.ChapterFolderShape | scrape_bot.py:145-146 | under a plain folder name, the chapter folder is `folder/chapter_<id>` and does not end in a slash |
| ScrapeBot.ChapterPathsShape | scrape_bot.py:145-149 | the files are `folder/chapter_<id>/content.txt` and `folder/chapter_<id>/audio.mp3` |
| ScrapeBot.FolderNamesDistinct | scrape_bot.py:119 | different groups get different `testament_<i>` folders, none ending in a slash |
| ScrapeBot.GroupOutcomesAt | scrape_bot.py:117-128 | the i-th step of the run is the i-th group's own iteration: fetch its URLs, join, save into `testament_<i>` |
| ScrapeBot.RunSticky | scrape_bot.py:117-131 | once an iteration raises, later iterations never run |
| ScrapeBot.RunShape | scrape_bot.py:113-131 | a run succeeds iff every iteration does; then there is one entry per processed group, in order, the i-th in `testament_<i>` with that group's records and the first processed group's name, and one request per chapter |
| ScrapeBot.MergedBatchEntry | scrape_bot.py:172-182 | every joined entry of a fetched batch has a chapter id and one of the batch's URLs; it is savable iff that visit ended in a 200 download, and otherwise it has no text |
| ScrapeBot.SaveFailsOnText | scrape_bot.py:152 | when every entry is savable or lacks text, a failing save fails with `KeyError` on `"text"` |
| ScrapeBot.HttpFailureAbortsGroup | scrape_bot.py:120-128 | one chapter whose download answers other than 200 makes its group's iteration raise `KeyError` on `"text"` |
| ScrapeBot.GroupRecordsAreDownloads | scrape_bot.py:120-128 | every saved record comes from a chapter of the group whose visit ended in a 200 download, and there are at most as many records as chapters |
| ScrapeBot.HttpFailureAbortsRun | scrape_bot.py:117-134 | one such chapter in any processed group makes `scrape_data` raise, so no index is written |
| ScrapeBot.BibleScraperBot.ScrapeGroup | scrape_bot.py:119-128 | one iteration yields that group's step of the run and makes one request per chapter |
| ScrapeBot.BibleScraperBot.ScrapeData | scrape_bot.py:111-136 | with no metadata it raises and makes no request; otherwise it returns the outcome of the run over the groups from index 39 on, and the counter grows by the run's requests |
| ScraperV1.JoinedAppend | scraper_v1.py:129-132 | joining span texts distributes over concatenation |
| ScraperV1.JoinedCons | scraper_v1.py:131-132 | read from the front, the first span adds a newline and its text, then the rest follow |
| ScraperV1.JoinedLengthIsSum | scraper_v1.py:127-135 | the text's length is the sum, over the spans, of 1 plus the span's length |
| ScraperV1.ConcatSpans | scraper_v1.py:130-132 | the `+=` loop yields every span text, each preceded by a newline, in order |
| ScraperV1.ExtractText | scraper_v1.py:126-135 | the text is empty without a `main` tag; otherwise it is the joined spans, of length `JoinedLength` |
| ScraperV1.SequentialResult | scraper_v1.py:137-171 | the key set is the outcome's shape: 200 gives `{chapter_url, text, audio}`, non-200 gives `{chapter_url, error}`, no player gives `{url, text, audio}`, an exception gives `{url, error}`; no result has both text and error; the URL key holds the visited URL; the text is the extracted text; audio is bytes iff downloaded |
| ScraperV1.AsyncResult | scraper_v1.py:60-107 | the same five facts for the async variant |
| ScraperV1.VariantsAgree | scraper_v1.py:83-107 | for the same visit outcome, both variants give the same dictionary apart from the error message |
| ScraperV1.PauseCountSnoc | scraper_v1.py:176-181 | one more call adds a pause iff the counter value it tests is a nonzero multiple of 25 |
| ScraperV1.PauseCountClosedForm | scraper_v1.py:177 | from a counter value lo ≥ 1, n tested values contain ⌊(lo+n−1)/25⌋ − ⌊(lo−1)/25⌋ pause counts |
| ScraperV1.SequentialPausesFromZero | scraper_v1.py:176-181 | from a fresh counter, n ≥ 1 sequential calls pause ⌊(n−1)/25⌋ times |
| ScraperV1.SequentialPacingExamples | scraper_v1.py:176-181 | 25 calls do not pause; 26 calls pause once |
| ScraperV1.AsyncPausesFromZero | scraper_v1.py:76-81 | from a fresh counter, n successful downloads pause ⌊n/25⌋ times |
| ScraperV1.AsyncRunPausesCount | scraper_v1.py:72-81 | in any completion order, the async pauses depend only on the number of 200 downloads |
| ScraperV1.DownloadsAppend | scraper_v1.py:72-77 | the count of 200 downloads of a concatenation is the sum of the parts' counts |
| ScraperV1.DownloadsPermutation | scraper_v1.py:194-197 | two completion orders of the same visits download the same number of times |
| ScraperV1.AsyncPausesAnyOrder | scraper_v1.py:72-81 | whatever order the concurrent downloads complete in, a fresh counter pauses ⌊downloads/25⌋ times |
| ScraperV1.ScraperState.constructor | scraper_v1.py:16 | the counter starts at 0 |
| ScraperV1.ScraperState.ExtractContentNonasync | scraper_v1.py:112-181 | returns the sequential result dictionary; it pauses iff the counter before the call is a nonzero multiple of 25; the counter grows by exactly 1 whatever the outcome |
| ScraperV1.ScraperState.ExtractTextAndAudio | scraper_v1.py:32-110 | returns the async result dictionary; the counter grows by 1 only on a 200 download, and it pauses iff that new value is a multiple of 25 |
| ScraperV1.AsyncStep | scraper_v1.py:72-81 | one more completed task adds a download exactly on a 200 answer, and then a pause exactly when the new count is a nonzero multiple of 25 |
| ScraperV1.SequentialBatchAt | scraper_v1.py:188-190 | the sequential batch has one result per URL, in input order, each that URL's sequential result |
| ScraperV1.ScraperState.CompleteInOrder | scraper_v1.py:194-197 | running `extract_text_and_audio` for each task as it completes, the counter grows by the number of 200 downloads and the pauses taken are `AsyncRunPauses` of the old counter over that completion order |
| ScraperV1.ScraperState.FetchDataNonasync | scraper_v1.py:184-192 | for a non-empty list, one result per URL in input order; the counter grows by the number of URLs, and the pauses taken are `SequentialPauses` of the old counter |
| Strings.FindFrom | scrape_bot.py:37 | a found index is where the pattern first occurs at or after the start; no result means it never occurs there |
| Strings.DecimalString | scrape_bot.py:119 | `str` of a natural is a non-empty string of digits |
| Strings.DecimalRoundTrip | scraper_v1.py:89-92 | reading back the decimal rendering of a status code gives the code |
| Strings.DecimalInjective | scrape_bot.py:119 | different numbers render differently |
| Strings.PathJoinPlain | scrape_bot.py:146-149 | joining a name that does not start with a slash onto a directory that does not end in one inserts exactly one slash |

## Left out

- Selenium driver creation, page loading, settle delays and `WebDriverWait`. These are browser
  I/O; a visit's outcome is the `Visit` input. The async variant's wait for the audio player,
  which raises on timeout, is one of the ways a visit ends in `Raised`.
- BeautifulSoup parsing, including `get_text(strip=True)`. The spans, headings and links arrive
  already extracted and stripped.
- `urljoin`, a foreign library call. It is the `join` parameter of `ParseDropDown` and
  `LoadBaseUrl`.
- The `requests` and `aiohttp` downloads. They are network calls; the status and body are
  inputs.
- Sleep durations, `random.choice`, `random.uniform` and `tqdm`. They are timing, randomness and
  display; the model records only whether a long pause happens.
- The file and directory writes of `process_and_save_data` and the `json.dump` of
  `scrape_data`. They are file I/O; the model keeps only the records, the paths and the errors.
- Logging and `print` calls. They are output only.
- `save_metadata_to_file` and `load_metadata_from_file`. They are file I/O, and they use a
  `testaments` attribute that nothing sets.
- The `isinstance(urls, str)` branch of `fetch_data_nonasync`. The model takes a list of URLs.
- main.py is not part of this model; it only parses the command line.
- ScraperV1.ScraperState.ExtractTextAndAudio: the asyncio lock and the interleaving of
  concurrent tasks are not modelled. Each completed 200 download is one atomic
  increment-and-test. `AsyncPausesAnyOrder` covers every completion order.
- ScrapeBot.BibleScraperBot.ScrapeData: models the sequential fetcher that the loop calls; the
  call to the async fetcher is commented out in the source.
- ScrapeBot.BibleScraperBot.LoadBaseUrl: does not model an exception raised while parsing
  (a book div without a heading, say). The source would leave a partial list; the model assumes
  parsing succeeds once the page is ready. Nor does it model a failure of `_create_driver()`
  (scrape_bot.py:49), which runs before the `try`: that exception escapes `load_base_url` and
  ends the program instead of leaving the metadata as it was.
- ScraperV1.ScraperState.FetchDataNonasync: requires a non-empty list. On an empty list the
  source raises `IndexError` at `results[0]`; `ScrapeData` models that case as
  `EmptyUrlList`.
- ScrapeBot.BibleScraperBot.ScrapeGroup: an iteration that raises still counts its requests
  in the model, as the source does. A `KeyError` in the save does not undo the fetches.
- ScraperV1.VariantsAgree: relates the two variants only for the same visit outcome. For one
  page the outcomes can differ: the async variant waits for an `audio-player` element
  (scraper_v1.py:61-63), so a page without one times out and ends in `Raised`, where the
  sequential variant returns `{url, text, audio: None}`.
- ScraperV1.ScraperState.ExtractContentNonasync: the counter grows by 1 whatever the visit
  outcome, but `create_driver()` (scraper_v1.py:115) runs before the `try`. If it raises, the
  exception escapes without the increment in `finally` and aborts `fetch_data_nonasync` and
  `scrape_data`. Driver creation is not modelled, so the model does not have this case.
- ScraperV1.ScraperState.CompleteInOrder: returns only the pauses taken. Each task's result
  dictionary is given by `ExtractTextAndAudio`'s contract; the gathered list is not collected.
- ScrapeBot.MergedBatchEntry: assumes that every visit of one URL has the same outcome, because
  `visitOf` maps a URL to a single `Visit`. The source loads a URL listed twice in a group twice
  (scraper_v1.py:188-189), and the two loads can end differently. `GroupRecordsAreDownloads`
  and `BatchKeptIff` rely on the same assumption when they speak of "that URL's visit".
