/** The chapter fetcher of scraper_v1.py: the result dictionaries a page visit produces, the text
    taken from its spans, the module-global `request_count` that paces the requests, and the
    sequential batch loop. The browser, the HTML parser and the HTTP download are replaced by a
    `Visit` value that says what they returned. */
module ScraperV1 {
  import opened Wrappers
  import Seqs
  import Strings

  newtype byte = x: int | 0 <= x < 256

  /** A long pause is due at every nonzero multiple of this many requests. */
  const PaceEvery: nat := 25

  /** The value stored under the "audio" key: the downloaded bytes, or Python's None. */
  datatype Audio = NoAudio | AudioBytes(bytes: seq<byte>)

  /** A result dictionary. Each field is present exactly when the dictionary has that key. */
  datatype Entry = Entry(
    url: Option<string>,
    chapterUrl: Option<string>,
    text: Option<string>,
    audio: Option<Audio>,
    error: Option<string>,
    chapterId: Option<string>)

  /** The dictionary keys: "url", "chapter_url", "text", "audio", "error", "chapter_id". */
  datatype Key = UrlKey | ChapterUrlKey | TextKey | AudioKey | ErrorKey | ChapterIdKey

  /** The key set of a result dictionary. */
  function Keys(e: Entry): set<Key>
  {
    (if e.url.Some? then {UrlKey} else {}) +
    (if e.chapterUrl.Some? then {ChapterUrlKey} else {}) +
    (if e.text.Some? then {TextKey} else {}) +
    (if e.audio.Some? then {AudioKey} else {}) +
    (if e.error.Some? then {ErrorKey} else {}) +
    (if e.chapterId.Some? then {ChapterIdKey} else {})
  }

  /** The HTTP response to the audio download. */
  datatype Response = Response(status: nat, content: seq<byte>)

  /** What one visit to a chapter page produced.
      Raised: some call inside the `try` block raised an exception with this message (page load,
        parsing, the async variant's wait for the audio player, the download itself).
      Rendered: the page was parsed. `spans` is None when there is no `main` tag, otherwise the
        stripped texts of its `align-left` spans in document order; `player` is None when there
        is no `video.audio-player` with a `src`, otherwise the response to downloading `src`. */
  datatype Visit =
    | Raised(message: string)
    | Rendered(spans: Option<seq<string>>, player: Option<Response>)

  /** The four ways a visit ends. */
  datatype Outcome = Downloaded | HttpFailure | NoPlayer | Failed

  function Classify(v: Visit): Outcome
  {
    match v
    case Raised(_) => Failed
    case Rendered(_, None) => NoPlayer
    case Rendered(_, Some(resp)) => if resp.status == 200 then Downloaded else HttpFailure
  }

  /** The key set each outcome produces, in both the sequential and the async variant. */
  function ShapeOf(o: Outcome): set<Key>
  {
    match o
    case Downloaded => {ChapterUrlKey, TextKey, AudioKey}
    case HttpFailure => {ChapterUrlKey, ErrorKey}
    case NoPlayer => {UrlKey, TextKey, AudioKey}
    case Failed => {UrlKey, ErrorKey}
  }

  // ---------------------------------------------------------------------------------------------
  // Text extraction

  /** Every span text, each preceded by a newline, in order. */
  function Joined(spans: seq<string>): string
  {
    if spans == [] then "" else Joined(spans[..|spans| - 1]) + "\n" + spans[|spans| - 1]
  }

  /** The text a page yields: nothing when it has no `main` tag. */
  function ExtractedText(spans: Option<seq<string>>): string
  {
    match spans
    case None => ""
    case Some(ts) => Joined(ts)
  }

  /** The sum over the span texts of one newline plus the text's length. */
  function JoinedLength(spans: seq<string>): nat
  {
    if spans == [] then 0 else 1 + |spans[0]| + JoinedLength(spans[1..])
  }

  /** Joining distributes over concatenation of span lists. */
  lemma {:induction false} JoinedAppend(a: seq<string>, b: seq<string>)
    ensures Joined(a + b) == Joined(a) + Joined(b)
    decreases |b|
  {
    if b == [] {
      assert a + b == a;
    } else {
      var last := b[|b| - 1];
      assert (a + b)[..|a + b| - 1] == a + b[..|b| - 1];
      JoinedAppend(a, b[..|b| - 1]);
    }
  }

  /** Read from the front: the first span contributes a newline and its text, then the rest. */
  lemma JoinedCons(t: string, spans: seq<string>)
    ensures Joined([t] + spans) == "\n" + t + Joined(spans)
  {
    JoinedAppend([t], spans);
    assert [t][..0] == [];
  }

  /** The extracted text has one character per newline plus the characters of every span. */
  lemma {:induction false} JoinedLengthIsSum(spans: seq<string>)
    ensures |Joined(spans)| == JoinedLength(spans)
    decreases |spans|
  {
    if spans != [] {
      JoinedCons(spans[0], spans[1..]);
      assert [spans[0]] + spans[1..] == spans;
      JoinedLengthIsSum(spans[1..]);
    }
  }

  /** The `+=` loop over the spans (scraper_v1.py:131-132). */
  method ConcatSpans(spans: seq<string>) returns (text: string)
    ensures text == Joined(spans)
  {
    text := "";
    var i := 0;
    while i < |spans|
      invariant 0 <= i <= |spans|
      invariant text == Joined(spans[..i])
    {
      assert spans[..i + 1][..i] == spans[..i];
      text := text + "\n" + spans[i];
      i := i + 1;
    }
    assert spans[..|spans|] == spans;
  }

  /** The text branch on the `main` tag (scraper_v1.py:126-135). */
  method ExtractText(spans: Option<seq<string>>) returns (text: string)
    ensures text == ExtractedText(spans)
    ensures spans.None? ==> text == ""
    ensures spans.Some? ==> |text| == JoinedLength(spans.value)
  {
    text := "";
    if spans.Some? {
      text := ConcatSpans(spans.value);
      JoinedLengthIsSum(spans.value);
    }
  }

  // ---------------------------------------------------------------------------------------------
  // Result dictionaries

  /** The dictionary `extract_content_nonasync` returns for a visit of `url`. */
  function SequentialResult(url: string, v: Visit): (r: Entry)
    ensures Keys(r) == ShapeOf(Classify(v))
    ensures TextKey in Keys(r) ==> ErrorKey !in Keys(r)
    ensures (if ChapterUrlKey in Keys(r) then r.chapterUrl else r.url) == Some(url)
    ensures r.text.Some? ==> r.text.value == ExtractedText(v.spans)
    ensures r.audio.Some? ==> (r.audio.value.AudioBytes? <==> Classify(v) == Downloaded)
  {
    match v
    case Raised(msg) =>
      Entry(Some(url), None, None, None, Some("An unexpected error has occured: " + msg), None)
    case Rendered(spans, None) =>
      Entry(Some(url), None, Some(ExtractedText(spans)), Some(NoAudio), None, None)
    case Rendered(spans, Some(resp)) =>
      if resp.status == 200 then
        Entry(None, Some(url), Some(ExtractedText(spans)), Some(AudioBytes(resp.content)), None, None)
      else
        Entry(None, Some(url), None, None, Some("Failed to Download Audio"), None)
  }

  /** The dictionary `extract_text_and_audio` returns for a visit of `url`: for the same visit
      outcome, the same keys as the sequential variant, with different error messages. */
  function AsyncResult(url: string, v: Visit): (r: Entry)
    ensures Keys(r) == ShapeOf(Classify(v))
    ensures TextKey in Keys(r) ==> ErrorKey !in Keys(r)
    ensures (if ChapterUrlKey in Keys(r) then r.chapterUrl else r.url) == Some(url)
    ensures r.text.Some? ==> r.text.value == ExtractedText(v.spans)
    ensures r.audio.Some? ==> (r.audio.value.AudioBytes? <==> Classify(v) == Downloaded)
  {
    match v
    case Raised(msg) =>
      Entry(Some(url), None, None, None, Some("An unexpected error occurred: " + msg), None)
    case Rendered(spans, None) =>
      Entry(Some(url), None, Some(ExtractedText(spans)), Some(NoAudio), None, None)
    case Rendered(spans, Some(resp)) =>
      if resp.status == 200 then
        Entry(None, Some(url), Some(ExtractedText(spans)), Some(AudioBytes(resp.content)), None, None)
      else
        Entry(None, Some(url), None, None,
              Some("Failed to download audio, HTTP status: " + Strings.DecimalString(resp.status)), None)
  }

  /** For the same visit outcome both variants agree on everything but the error message. The
      outcome itself may differ for one page: the async variant's wait for an `audio-player`
      element turns a page without one into `Raised`. */
  lemma VariantsAgree(url: string, v: Visit)
    ensures SequentialResult(url, v).(error := None) == AsyncResult(url, v).(error := None)
    ensures Keys(SequentialResult(url, v)) == Keys(AsyncResult(url, v))
  {
  }

  // ---------------------------------------------------------------------------------------------
  // Pacing by request count

  /** The pause test on a counter value: a nonzero multiple of 25. The sequential variant applies
      it to the counter before its increment, the async variant to the counter after it. */
  predicate IsPauseCount(c: nat)
  {
    c % PaceEvery == 0 && c != 0
  }

  /** How many of the `n` consecutive counter values `lo`, ..., `lo + n - 1` are pause counts. */
  function PauseCountIn(lo: nat, n: nat): nat
    decreases n
  {
    if n == 0 then 0 else (if IsPauseCount(lo) then 1 else 0) + PauseCountIn(lo + 1, n - 1)
  }

  /** Pauses taken by `n` sequential calls starting from counter `start`: call k tests `start + k`. */
  function SequentialPauses(start: nat, n: nat): nat
  {
    PauseCountIn(start, n)
  }

  /** Pauses taken by `n` successful async downloads starting from counter `start`: download k
      tests the incremented value `start + k + 1`. */
  function AsyncPauses(start: nat, n: nat): nat
  {
    PauseCountIn(start + 1, n)
  }

  /** Extending a range by one counter value at its end. */
  lemma {:induction false} PauseCountSnoc(lo: nat, n: nat)
    ensures PauseCountIn(lo, n + 1) == PauseCountIn(lo, n) + (if IsPauseCount(lo + n) then 1 else 0)
    decreases n
  {
    if n > 0 {
      PauseCountSnoc(lo + 1, n - 1);
    }
  }

  /** Stepping past one counter value adds one to the count of multiples exactly at a multiple. */
  lemma StepMultiples(c: nat)
    requires c >= 1
    ensures c / 25 == (c - 1) / 25 + (if c % 25 == 0 then 1 else 0)
  {
  }

  /** Over `lo`, ..., `lo + n - 1` with `lo >= 1`, the pause counts are the multiples of 25. */
  lemma {:induction false} PauseCountClosedForm(lo: nat, n: nat)
    requires lo >= 1
    ensures PauseCountIn(lo, n) == (lo + n - 1) / 25 - (lo - 1) / 25
    decreases n
  {
    if n > 0 {
      PauseCountClosedForm(lo + 1, n - 1);
      StepMultiples(lo);
    }
  }

  /** From a fresh counter, n >= 1 sequential calls pause floor((n - 1) / 25) times. */
  lemma SequentialPausesFromZero(n: nat)
    requires n >= 1
    ensures SequentialPauses(0, n) == (n - 1) / 25
  {
    PauseCountClosedForm(1, n - 1);
  }

  /** 25 sequential calls never pause; the 26th pauses once, before its own increment. */
  lemma SequentialPacingExamples()
    ensures SequentialPauses(0, 25) == 0
    ensures SequentialPauses(0, 26) == 1
  {
    SequentialPausesFromZero(25);
    SequentialPausesFromZero(26);
  }

  /** From a fresh counter, n successful async downloads pause floor(n / 25) times. */
  lemma AsyncPausesFromZero(n: nat)
    ensures AsyncPauses(0, n) == n / 25
  {
    PauseCountClosedForm(1, n);
  }

  /** The number of visits that end in a 200 download. */
  function Downloads(vs: seq<Visit>): nat
  {
    if vs == [] then 0 else (if Classify(vs[0]) == Downloaded then 1 else 0) + Downloads(vs[1..])
  }

  /** Pauses taken when async calls complete in the order `vs`, from counter `start`. */
  function AsyncRunPauses(start: nat, vs: seq<Visit>): nat
    decreases |vs|
  {
    if vs == [] then 0
    else if Classify(vs[0]) == Downloaded then
      (if IsPauseCount(start + 1) then 1 else 0) + AsyncRunPauses(start + 1, vs[1..])
    else AsyncRunPauses(start, vs[1..])
  }

  /** Only the downloads move the async counter, so the pauses depend only on their number. */
  lemma {:induction false} AsyncRunPausesCount(start: nat, vs: seq<Visit>)
    ensures AsyncRunPauses(start, vs) == AsyncPauses(start, Downloads(vs))
    decreases |vs|
  {
    if vs != [] {
      if Classify(vs[0]) == Downloaded {
        AsyncRunPausesCount(start + 1, vs[1..]);
      } else {
        AsyncRunPausesCount(start, vs[1..]);
      }
    }
  }

  /** Counting downloads distributes over concatenation. */
  lemma {:induction false} DownloadsAppend(a: seq<Visit>, b: seq<Visit>)
    ensures Downloads(a + b) == Downloads(a) + Downloads(b)
    decreases |a|
  {
    if a == [] {
      assert a + b == b;
    } else {
      assert (a + b)[1..] == a[1..] + b;
      DownloadsAppend(a[1..], b);
    }
  }

  /** Any two completion orders of the same visits download the same number of times. */
  lemma {:induction false} DownloadsPermutation(a: seq<Visit>, b: seq<Visit>)
    requires multiset(a) == multiset(b)
    ensures Downloads(a) == Downloads(b)
    decreases |a|
  {
    if a == [] {
      assert |b| == 0;
    } else {
      var j := Seqs.PermutationHead(a, b);
      var rest := b[..j] + b[j + 1..];
      DownloadsPermutation(a[1..], rest);
      DownloadsAppend(b[..j] + [b[j]], b[j + 1..]);
      DownloadsAppend(b[..j], [b[j]]);
      DownloadsAppend(b[..j], b[j + 1..]);
    }
  }

  /** The visit of each URL, in order. */
  function VisitsOf(urls: seq<string>, visitOf: string -> Visit): seq<Visit>
    decreases |urls|
  {
    if urls == [] then [] else VisitsOf(urls[..|urls| - 1], visitOf) + [visitOf(urls[|urls| - 1])]
  }

  /** One more completed task: the downloads grow by one exactly on a 200 download, and then a
      pause is added iff the new counter value is a pause count. */
  lemma AsyncStep(start: nat, seen: seq<Visit>, v: Visit)
    ensures var d := Downloads(seen);
      var up := Classify(v) == Downloaded;
      Downloads(seen + [v]) == d + (if up then 1 else 0) &&
      AsyncPauses(start, Downloads(seen + [v])) ==
        AsyncPauses(start, d) + (if up && IsPauseCount(start + d + 1) then 1 else 0)
  {
    DownloadsAppend(seen, [v]);
    assert [v][1..] == [];
    PauseCountSnoc(start + 1, Downloads(seen));
  }

  /** Whatever order the concurrent downloads complete in, a fresh counter pauses
      floor(downloads / 25) times: 50 successful downloads pause exactly twice. */
  lemma AsyncPausesAnyOrder(vs: seq<Visit>, order: seq<Visit>)
    requires multiset(order) == multiset(vs)
    ensures AsyncRunPauses(0, order) == Downloads(vs) / 25
  {
    AsyncRunPausesCount(0, order);
    DownloadsPermutation(order, vs);
    AsyncPausesFromZero(Downloads(vs));
  }

  // ---------------------------------------------------------------------------------------------
  // The module-global state and the calls that update it

  /** The module globals of scraper_v1.py. The asyncio lock that guards the counter in the async
      variant is not modelled: each completed download is one atomic update. */
  class ScraperState {
    var requestCount: nat

    constructor ()
      ensures requestCount == 0
    {
      requestCount := 0;
    }

    /** One sequential fetch (scraper_v1.py:112-181). The `finally` block tests the counter, then
        increments it, whatever the outcome; `paused` says whether the long sleep ran. */
    method ExtractContentNonasync(url: string, v: Visit) returns (result: Entry, paused: bool)
      modifies this
      ensures result == SequentialResult(url, v)
      ensures paused == IsPauseCount(old(requestCount))
      ensures requestCount == old(requestCount) + 1
    {
      match v {
        case Raised(msg) =>
          result := Entry(Some(url), None, None, None, Some("An unexpected error has occured: " + msg), None);
        case Rendered(spans, player) =>
          var text := ExtractText(spans);
          match player {
            case None =>
              result := Entry(Some(url), None, Some(text), Some(NoAudio), None, None);
            case Some(resp) =>
              if resp.status == 200 {
                result := Entry(None, Some(url), Some(text), Some(AudioBytes(resp.content)), None, None);
              } else {
                result := Entry(None, Some(url), None, None, Some("Failed to Download Audio"), None);
              }
          }
      }
      paused := requestCount % PaceEvery == 0 && requestCount != 0;
      requestCount := requestCount + 1;
    }

    /** One async fetch (scraper_v1.py:32-110). Only a 200 download increments the counter, and
        the test runs on the incremented value; `paused` says whether the long sleep ran. */
    method ExtractTextAndAudio(url: string, v: Visit) returns (result: Entry, paused: bool)
      modifies this
      ensures result == AsyncResult(url, v)
      ensures requestCount == old(requestCount) + (if Classify(v) == Downloaded then 1 else 0)
      ensures paused == (Classify(v) == Downloaded && IsPauseCount(requestCount))
    {
      paused := false;
      match v {
        case Raised(msg) =>
          result := Entry(Some(url), None, None, None, Some("An unexpected error occurred: " + msg), None);
        case Rendered(spans, player) =>
          var text := ExtractText(spans);
          match player {
            case None =>
              result := Entry(Some(url), None, Some(text), Some(NoAudio), None, None);
            case Some(resp) =>
              if resp.status == 200 {
                requestCount := requestCount + 1;
                paused := requestCount % PaceEvery == 0 && requestCount != 0;
                result := Entry(None, Some(url), Some(text), Some(AudioBytes(resp.content)), None, None);
              } else {
                result := Entry(None, Some(url), None, None,
                                Some("Failed to download audio, HTTP status: " + Strings.DecimalString(resp.status)), None);
              }
          }
      }
    }

    /** The sequential batch (scraper_v1.py:184-192) over a list of URLs, each visit's outcome
        given by `visitOf`. Python fails at `results[0]` on an empty list, hence the requires.
        `pauses` counts the long sleeps taken. */
    method FetchDataNonasync(urls: seq<string>, visitOf: string -> Visit) returns (results: seq<Entry>, pauses: nat)
      requires |urls| > 0
      modifies this
      ensures |results| == |urls|
      ensures forall i :: 0 <= i < |urls| ==> results[i] == SequentialResult(urls[i], visitOf(urls[i]))
      ensures requestCount == old(requestCount) + |urls|
      ensures pauses == SequentialPauses(old(requestCount), |urls|)
    {
      results := [];
      pauses := 0;
      var i := 0;
      while i < |urls|
        invariant 0 <= i <= |urls|
        invariant |results| == i
        invariant forall k :: 0 <= k < i ==> results[k] == SequentialResult(urls[k], visitOf(urls[k]))
        invariant requestCount == old(requestCount) + i
        invariant pauses == SequentialPauses(old(requestCount), i)
      {
        PauseCountSnoc(old(requestCount), i);
        var result, paused := ExtractContentNonasync(urls[i], visitOf(urls[i]));
        results := results + [result];
        if paused {
          pauses := pauses + 1;
        }
        i := i + 1;
      }
    }

    /** The tasks of `fetch_data_for_urls` (scraper_v1.py:194-197) taken one at a time as they
        complete, in the order `order`; each is `extract_text_and_audio`, whose result dictionary
        its own contract gives. `pauses` counts the long sleeps taken. */
    method CompleteInOrder(order: seq<string>, visitOf: string -> Visit) returns (pauses: nat)
      modifies this
      ensures requestCount == old(requestCount) + Downloads(VisitsOf(order, visitOf))
      ensures pauses == AsyncRunPauses(old(requestCount), VisitsOf(order, visitOf))
    {
      ghost var start := requestCount;
      ghost var seen: seq<Visit> := [];
      pauses := 0;
      var i := 0;
      while i < |order|
        invariant 0 <= i <= |order|
        invariant seen == VisitsOf(order[..i], visitOf)
        invariant requestCount == start + Downloads(seen)
        invariant pauses == AsyncPauses(start, Downloads(seen))
      {
        assert order[..i + 1][..i] == order[..i];
        AsyncStep(start, seen, visitOf(order[i]));
        var _, paused := ExtractTextAndAudio(order[i], visitOf(order[i]));
        if paused {
          pauses := pauses + 1;
        }
        seen := seen + [visitOf(order[i])];
        i := i + 1;
      }
      assert order[..|order|] == order;
      AsyncRunPausesCount(start, seen);
    }
  }

  /** The results of the sequential batch, appended one URL at a time. */
  function SequentialBatch(urls: seq<string>, visitOf: string -> Visit): seq<Entry>
    decreases |urls|
  {
    if urls == [] then []
    else SequentialBatch(urls[..|urls| - 1], visitOf) + [SequentialResult(urls[|urls| - 1], visitOf(urls[|urls| - 1]))]
  }

  /** The batch has one result per URL, in input order. */
  lemma {:induction false} SequentialBatchAt(urls: seq<string>, visitOf: string -> Visit)
    ensures |SequentialBatch(urls, visitOf)| == |urls|
    ensures forall i :: 0 <= i < |urls| ==> SequentialBatch(urls, visitOf)[i] == SequentialResult(urls[i], visitOf(urls[i]))
    decreases |urls|
  {
    if urls != [] {
      SequentialBatchAt(urls[..|urls| - 1], visitOf);
    }
  }
}
