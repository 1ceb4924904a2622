/** The bookkeeping of `BibleScraperBot` in scrape_bot.py: the site base taken from the start URL,
    the chapter URLs of a testament, the left join of fetch results onto chapter configs by
    `chapter_url`, the per-chapter records that `process_and_save_data` returns, and the
    `scrape_data` driver loop. Browser sessions, file writes and the JSON dump are left out; the
    outcome of each page visit is given by a function from URL to `Visit`. */
module ScrapeBot {
  import opened Wrappers
  import Seqs
  import opened ScraperV1
  import Strings

  /** A chapter in the menu: its span text and its absolute URL. */
  datatype ChapterConfig = ChapterConfig(chapterId: string, chapterUrl: string)

  /** A book button of the menu: its heading and its chapters in document order. */
  datatype TestamentMetadata = TestamentMetadata(testamentName: string, chapters: seq<ChapterConfig>)

  /** A chapter link as the parser sees it: its `href` and the text of its inner span. */
  datatype Link = Link(href: string, spanText: string)

  /** A `book-button` div as the parser sees it: its `h4` text and its `chapter-box` links. */
  datatype BookDiv = BookDiv(heading: string, links: seq<Link>)

  /** A dictionary in the list `process_and_save_data` returns. */
  datatype ChapterRecord = ChapterRecord(
    chapterId: string,
    chapterUrl: string,
    textFilePath: string,
    audioFilePath: string)

  /** A dictionary in the global metadata list. */
  datatype GlobalEntry = GlobalEntry(
    testamentName: string,
    testamentFolderName: string,
    chapters: seq<ChapterRecord>)

  /** Why saving a merged entry raises: a `KeyError` on a missing key, or a `TypeError` when
      writing an "audio" value that is None. */
  datatype SaveError = MissingKey(key: Key) | AudioNotBytes

  /** Why `scrape_data` raises: `chapters_metadata` was never assigned (`AttributeError`), a group
      with no chapters makes `fetch_data_nonasync` index an empty list (`IndexError`), or saving
      the records of group `group` failed. */
  datatype RunError = NoChaptersMetadata | EmptyUrlList(group: nat) | SaveFailed(group: nat, cause: SaveError)

  const BibleMarker: string := "/bible"

  /** `scrape_data` skips this many groups of the menu. */
  const ResumeOffset: nat := 39

  // ---------------------------------------------------------------------------------------------
  // Site base

  /** `url.split('/bible')[0]`: the part of `url` before the first "/bible", or all of it. */
  function BaseUrl(url: string): (b: string)
    ensures b <= url
    ensures forall k: nat :: k < |b| ==> !Strings.OccursAt(url, BibleMarker, k)
    ensures b == url || Strings.OccursAt(url, BibleMarker, |b|)
    ensures b == url <==> forall k: nat :: !Strings.OccursAt(url, BibleMarker, k)
  {
    match Strings.FindFrom(url, BibleMarker, 0)
    case Some(i) => url[..i]
    case None => url
  }

  // ---------------------------------------------------------------------------------------------
  // Chapter URLs and the URL map

  /** The chapter URLs of a list of configs, appended one config at a time. */
  function UrlsOf(chapters: seq<ChapterConfig>): seq<string>
    decreases |chapters|
  {
    if chapters == [] then [] else UrlsOf(chapters[..|chapters| - 1]) + [chapters[|chapters| - 1].chapterUrl]
  }

  /** The URLs are the configs' URLs, same length and order. */
  lemma {:induction false} UrlsOfAt(chapters: seq<ChapterConfig>)
    ensures |UrlsOf(chapters)| == |chapters|
    ensures forall i :: 0 <= i < |chapters| ==> UrlsOf(chapters)[i] == chapters[i].chapterUrl
    decreases |chapters|
  {
    if chapters != [] {
      UrlsOfAt(chapters[..|chapters| - 1]);
    }
  }

  /** `{chapter.chapter_url: chapter for chapter in dataclass_list}`: later configs overwrite
      earlier ones with the same URL. */
  function ChapterMap(configs: seq<ChapterConfig>): map<string, ChapterConfig>
    decreases |configs|
  {
    if configs == [] then map[]
    else
      var last := configs[|configs| - 1];
      ChapterMap(configs[..|configs| - 1])[last.chapterUrl := last]
  }

  /** The map has exactly the configs' URLs as keys, and each URL maps to the LAST config that
      carries it. */
  lemma {:induction false} ChapterMapLastWins(configs: seq<ChapterConfig>, u: string)
    ensures u in ChapterMap(configs) <==> u in UrlsOf(configs)
    ensures u in ChapterMap(configs) ==>
      exists i :: 0 <= i < |configs| && configs[i] == ChapterMap(configs)[u] && configs[i].chapterUrl == u &&
        forall j :: i < j < |configs| ==> configs[j].chapterUrl != u
    decreases |configs|
  {
    if configs != [] {
      var n := |configs|;
      var init := configs[..n - 1];
      ChapterMapLastWins(init, u);
      assert forall j :: 0 <= j < n - 1 ==> init[j] == configs[j];
      assert UrlsOf(configs) == UrlsOf(init) + [configs[n - 1].chapterUrl];
      if configs[n - 1].chapterUrl == u {
        assert configs[n - 1] == ChapterMap(configs)[u];
      } else if u in ChapterMap(configs) {
        var i :| 0 <= i < n - 1 && init[i] == ChapterMap(init)[u] && init[i].chapterUrl == u &&
          forall j :: i < j < n - 1 ==> init[j].chapterUrl != u;
        assert configs[i] == ChapterMap(configs)[u];
      }
    }
  }

  // ---------------------------------------------------------------------------------------------
  // Merge

  /** The merge keeps an entry iff it has a "chapter_url" key whose value is a key of the map. */
  predicate Matches(e: Entry, m: map<string, ChapterConfig>)
  {
    e.chapterUrl.Some? && e.chapterUrl.value in m
  }

  /** `{**entry, 'chapter_id': chapter_map[chapter_url].chapter_id}`. */
  function Tagged(e: Entry, m: map<string, ChapterConfig>): (r: Entry)
    requires Matches(e, m)
    ensures r.chapterId == Some(m[e.chapterUrl.value].chapterId)
    ensures r.(chapterId := e.chapterId) == e
  {
    e.(chapterId := Some(m[e.chapterUrl.value].chapterId))
  }

  /** The merged list: the matching entries, tagged, in input order. */
  function Merged(entries: seq<Entry>, m: map<string, ChapterConfig>): seq<Entry>
    decreases |entries|
  {
    if entries == [] then []
    else
      var e := entries[|entries| - 1];
      var init := Merged(entries[..|entries| - 1], m);
      if Matches(e, m) then init + [Tagged(e, m)] else init
  }

  /** The input positions the merge keeps, in increasing order. */
  function KeptIndices(entries: seq<Entry>, m: map<string, ChapterConfig>): seq<nat>
    decreases |entries|
  {
    if entries == [] then []
    else
      var init := KeptIndices(entries[..|entries| - 1], m);
      if Matches(entries[|entries| - 1], m) then init + [|entries| - 1] else init
  }

  /** The merged list is the subsequence of the entries at the kept positions, each tagged; the
      kept positions are exactly those of the matching entries. */
  lemma {:induction false} MergeIsSubsequence(entries: seq<Entry>, m: map<string, ChapterConfig>)
    ensures |KeptIndices(entries, m)| == |Merged(entries, m)|
    ensures forall k :: 0 <= k < |KeptIndices(entries, m)| ==>
      KeptIndices(entries, m)[k] < |entries| && Matches(entries[KeptIndices(entries, m)[k]], m) &&
      Merged(entries, m)[k] == Tagged(entries[KeptIndices(entries, m)[k]], m)
    ensures forall k, l :: 0 <= k < l < |KeptIndices(entries, m)| ==>
      KeptIndices(entries, m)[k] < KeptIndices(entries, m)[l]
    ensures forall i :: 0 <= i < |entries| ==> (i in KeptIndices(entries, m) <==> Matches(entries[i], m))
    decreases |entries|
  {
    if entries != [] {
      var n := |entries|;
      var init := entries[..n - 1];
      MergeIsSubsequence(init, m);
      assert forall i :: 0 <= i < n - 1 ==> init[i] == entries[i];
    }
  }

  /** The merge never produces more entries than it was given. */
  lemma {:induction false} MergedLength(entries: seq<Entry>, m: map<string, ChapterConfig>)
    ensures |Merged(entries, m)| <= |entries|
    decreases |entries|
  {
    if entries != [] {
      MergedLength(entries[..|entries| - 1], m);
    }
  }

  /** Merging distributes over concatenation. */
  lemma {:induction false} MergedAppend(a: seq<Entry>, b: seq<Entry>, m: map<string, ChapterConfig>)
    ensures Merged(a + b, m) == Merged(a, m) + Merged(b, m)
    decreases |b|
  {
    if b == [] {
      assert a + b == a;
    } else {
      assert (a + b)[..|a + b| - 1] == a + b[..|b| - 1];
      MergedAppend(a, b[..|b| - 1], m);
    }
  }

  /** Results that arrive in another order merge to the same entries, in another order. */
  lemma {:induction false} MergedPermutation(a: seq<Entry>, b: seq<Entry>, m: map<string, ChapterConfig>)
    requires multiset(a) == multiset(b)
    ensures multiset(Merged(a, m)) == multiset(Merged(b, m))
    decreases |a|
  {
    if a == [] {
      assert |b| == 0;
    } else {
      var j := Seqs.PermutationHead(a, b);
      var rest := b[..j] + b[j + 1..];
      MergedPermutation(a[1..], rest, m);
      MergedAppend([a[0]], a[1..], m);
      MergedAppend(b[..j] + [b[j]], b[j + 1..], m);
      MergedAppend(b[..j], [b[j]], m);
      MergedAppend(b[..j], b[j + 1..], m);
      assert a == [a[0]] + a[1..];
      assert multiset(Merged(rest, m)) == multiset(Merged(b[..j], m)) + multiset(Merged(b[j + 1..], m));
      assert multiset(Merged(b, m))
          == multiset(Merged(b[..j], m)) + multiset(Merged([b[j]], m)) + multiset(Merged(b[j + 1..], m));
    }
  }

  // ---------------------------------------------------------------------------------------------
  // Saved records

  /** `os.path.join(folder_name, f"chapter_{chapter_id}")`. */
  function ChapterFolder(folder: string, id: string): string
  {
    Strings.PathJoin(folder, "chapter_" + id)
  }

  function TextFilePath(folder: string, id: string): string
  {
    Strings.PathJoin(ChapterFolder(folder, id), "content.txt")
  }

  function AudioFilePath(folder: string, id: string): string
  {
    Strings.PathJoin(ChapterFolder(folder, id), "audio.mp3")
  }

  /** Under a plain folder name, the chapter folder is `folder/chapter_<id>` and ends as `id` does. */
  lemma ChapterFolderShape(folder: string, id: string)
    requires folder != [] && folder[|folder| - 1] != '/'
    requires id == [] || id[|id| - 1] != '/'
    ensures ChapterFolder(folder, id) == folder + "/" + ("chapter_" + id)
    ensures ChapterFolder(folder, id)[|ChapterFolder(folder, id)| - 1] != '/'
  {
    var c := "chapter_" + id;
    assert c[0] == 'c';
    Strings.PathJoinPlain(folder, c);
    var dir := folder + "/" + c;
    if id == [] {
      assert dir[|dir| - 1] == '_';
    } else {
      assert dir[|dir| - 1] == id[|id| - 1];
    }
  }

  /** Under a plain folder name, the files are `folder/chapter_<id>/content.txt` and
      `folder/chapter_<id>/audio.mp3`. */
  lemma ChapterPathsShape(folder: string, id: string)
    requires folder != [] && folder[|folder| - 1] != '/'
    requires id == [] || id[|id| - 1] != '/'
    ensures TextFilePath(folder, id) == folder + "/" + ("chapter_" + id) + "/content.txt"
    ensures AudioFilePath(folder, id) == folder + "/" + ("chapter_" + id) + "/audio.mp3"
  {
    ChapterFolderShape(folder, id);
    var dir := ChapterFolder(folder, id);
    Strings.PathJoinPlain(dir, "content.txt");
    Strings.PathJoinPlain(dir, "audio.mp3");
  }

  /** The folder of the i-th processed group. */
  function FolderName(i: nat): string
  {
    "testament_" + Strings.DecimalString(i)
  }

  /** Different groups get different folders, and no folder name ends in a slash. */
  lemma FolderNamesDistinct(i: nat, j: nat)
    requires i != j
    ensures FolderName(i) != FolderName(j)
    ensures FolderName(i)[|FolderName(i)| - 1] != '/'
  {
    if FolderName(i) == FolderName(j) {
      var p := "testament_";
      assert Strings.DecimalString(i) == FolderName(i)[|p|..];
      assert Strings.DecimalString(j) == FolderName(j)[|p|..];
      Strings.DecimalInjective(i, j);
    }
  }

  /** An entry whose save succeeds: it has "chapter_id", "text", "chapter_url" and bytes under
      "audio". */
  predicate Savable(e: Entry)
  {
    e.chapterId.Some? && e.text.Some? && e.audio.Some? && e.audio.value.AudioBytes? && e.chapterUrl.Some?
  }

  /** One iteration of `process_and_save_data`: the keys are read in the order of lines 145, 152,
      155 and 158, and the first one that fails raises. */
  function SaveEntry(e: Entry, folder: string): (r: Result<ChapterRecord, SaveError>)
    ensures r.Success? <==> Savable(e)
    ensures r.Success? ==> r.value.chapterId == e.chapterId.value && r.value.chapterUrl == e.chapterUrl.value
    ensures r.Success? ==> r.value.textFilePath == TextFilePath(folder, e.chapterId.value)
    ensures r.Success? ==> r.value.audioFilePath == AudioFilePath(folder, e.chapterId.value)
  {
    if e.chapterId.None? then Failure(MissingKey(ChapterIdKey))
    else if e.text.None? then Failure(MissingKey(TextKey))
    else if e.audio.None? then Failure(MissingKey(AudioKey))
    else if e.audio.value.NoAudio? then Failure(AudioNotBytes)
    else if e.chapterUrl.None? then Failure(MissingKey(ChapterUrlKey))
    else
      var id := e.chapterId.value;
      Success(ChapterRecord(id, e.chapterUrl.value, TextFilePath(folder, id), AudioFilePath(folder, id)))
  }

  /** The whole of `process_and_save_data`: the records in order, or the first error raised. */
  function SaveAll(entries: seq<Entry>, folder: string): Result<seq<ChapterRecord>, SaveError>
    decreases |entries|
  {
    if entries == [] then Success([])
    else
      var done := SaveAll(entries[..|entries| - 1], folder);
      var next := SaveEntry(entries[|entries| - 1], folder);
      if done.Failure? then done
      else if next.Failure? then Failure(next.error)
      else Success(done.value + [next.value])
  }

  /** Saving one more entry after a failed prefix raises the same error. */
  lemma SaveAllStep(entries: seq<Entry>, folder: string, j: nat)
    requires 0 < j <= |entries| && SaveAll(entries[..j - 1], folder).Failure?
    ensures SaveAll(entries[..j], folder) == SaveAll(entries[..j - 1], folder)
  {
    assert entries[..j][..j - 1] == entries[..j - 1];
  }

  /** Once saving a prefix has raised, saving any longer prefix raises the same error. */
  lemma {:induction false} SaveAllSticky(entries: seq<Entry>, folder: string, i: nat, j: nat)
    requires i <= j <= |entries|
    requires SaveAll(entries[..i], folder).Failure?
    ensures SaveAll(entries[..j], folder) == SaveAll(entries[..i], folder)
    decreases j
  {
    if j > i {
      SaveAllSticky(entries, folder, i, j - 1);
      SaveAllStep(entries, folder, j);
    }
  }

  /** Saving succeeds iff every entry is savable, and then yields one record per entry, in order,
      carrying the entry's chapter id and URL and the paths under `folder`. */
  lemma {:induction false} SaveAllOk(entries: seq<Entry>, folder: string)
    ensures SaveAll(entries, folder).Success? <==> forall i :: 0 <= i < |entries| ==> Savable(entries[i])
    ensures SaveAll(entries, folder).Success? ==>
      |SaveAll(entries, folder).value| == |entries| &&
      forall i :: 0 <= i < |entries| ==> SaveAll(entries, folder).value[i] == SaveEntry(entries[i], folder).value
    decreases |entries|
  {
    if entries != [] {
      var n := |entries|;
      var init := entries[..n - 1];
      SaveAllOk(init, folder);
      var done := SaveAll(init, folder);
      var next := SaveEntry(entries[n - 1], folder);
      if done.Failure? {
        var i :| 0 <= i < n - 1 && !Savable(init[i]);
        assert init[i] == entries[i];
      } else if next.Success? {
        var rs := done.value + [next.value];
        assert SaveAll(entries, folder) == Success(rs);
        forall i | 0 <= i < n
          ensures Savable(entries[i]) && rs[i] == SaveEntry(entries[i], folder).value
        {
          if i < n - 1 {
            assert init[i] == entries[i];
          }
        }
      }
    }
  }

  /** Saving a concatenation succeeds iff saving each part does, and then yields the parts'
      records one after the other. */
  lemma {:induction false} SaveAllAppend(a: seq<Entry>, b: seq<Entry>, folder: string)
    ensures SaveAll(a + b, folder).Success? <==> SaveAll(a, folder).Success? && SaveAll(b, folder).Success?
    ensures SaveAll(a + b, folder).Success? ==>
      SaveAll(a + b, folder).value == SaveAll(a, folder).value + SaveAll(b, folder).value
    decreases |b|
  {
    if b == [] {
      assert a + b == a;
    } else {
      assert (a + b)[..|a + b| - 1] == a + b[..|b| - 1];
      SaveAllAppend(a, b[..|b| - 1], folder);
      if SaveAll(a, folder).Failure? {
        SaveAllSticky(a + b, folder, |a|, |a + b|);
        assert (a + b)[..|a|] == a;
        assert (a + b)[..|a + b|] == a + b;
      }
    }
  }

  /** Saving the same entries in another order succeeds or fails alike, and on success yields the
      same records in another order. */
  lemma {:induction false} SaveAllPermutation(a: seq<Entry>, b: seq<Entry>, folder: string)
    requires multiset(a) == multiset(b)
    ensures SaveAll(a, folder).Success? <==> SaveAll(b, folder).Success?
    ensures SaveAll(a, folder).Success? ==> multiset(SaveAll(a, folder).value) == multiset(SaveAll(b, folder).value)
    decreases |a|
  {
    if a == [] {
      assert |b| == 0;
    } else {
      var j := Seqs.PermutationHead(a, b);
      var rest := b[..j] + b[j + 1..];
      SaveAllPermutation(a[1..], rest, folder);
      assert a == [a[0]] + a[1..];
      SaveAllAppend([a[0]], a[1..], folder);
      SaveAllAppend(b[..j] + [b[j]], b[j + 1..], folder);
      SaveAllAppend(b[..j], [b[j]], folder);
      SaveAllAppend(b[..j], b[j + 1..], folder);
      if SaveAll(a, folder).Success? {
        assert multiset(SaveAll(rest, folder).value)
            == multiset(SaveAll(b[..j], folder).value) + multiset(SaveAll(b[j + 1..], folder).value);
        assert multiset(SaveAll(b, folder).value)
            == multiset(SaveAll(b[..j], folder).value) + multiset(SaveAll([b[j]], folder).value)
               + multiset(SaveAll(b[j + 1..], folder).value);
      }
    }
  }

  /** The join and the save do not depend on the order the fetch results arrive in: the same
      results in any order save the same records, or fail alike. */
  lemma MergeThenSaveOrderFree(a: seq<Entry>, b: seq<Entry>, m: map<string, ChapterConfig>, folder: string)
    requires multiset(a) == multiset(b)
    ensures SaveAll(Merged(a, m), folder).Success? <==> SaveAll(Merged(b, m), folder).Success?
    ensures SaveAll(Merged(a, m), folder).Success? ==>
      multiset(SaveAll(Merged(a, m), folder).value) == multiset(SaveAll(Merged(b, m), folder).value)
  {
    MergedPermutation(a, b, m);
    SaveAllPermutation(Merged(a, m), Merged(b, m), folder);
  }

  // ---------------------------------------------------------------------------------------------
  // The driver loop

  /** The processed groups: `chapters_metadata[39:]`. */
  function Resumed(groups: seq<TestamentMetadata>): seq<TestamentMetadata>
  {
    if |groups| <= ResumeOffset then [] else groups[ResumeOffset..]
  }

  /** What one iteration of `scrape_data` yields for the i-th processed group: fetch every chapter
      URL, merge by URL, save. */
  function GroupOutcome(g: TestamentMetadata, i: nat, visitOf: string -> Visit): Result<seq<ChapterRecord>, RunError>
  {
    var urls := UrlsOf(g.chapters);
    if urls == [] then Failure(EmptyUrlList(i))
    else
      match SaveAll(Merged(SequentialBatch(urls, visitOf), ChapterMap(g.chapters)), FolderName(i))
      case Success(rs) => Success(rs)
      case Failure(err) => Failure(SaveFailed(i, err))
  }

  /** The outcome of every group's iteration from the j-th on, each taken on its own. */
  function GroupOutcomes(groups: seq<TestamentMetadata>, j: nat, visitOf: string -> Visit): (steps: seq<Result<seq<ChapterRecord>, RunError>>)
    requires j <= |groups|
    ensures |steps| == |groups| - j
    decreases |groups| - j
  {
    if j == |groups| then [] else [GroupOutcome(groups[j], j, visitOf)] + GroupOutcomes(groups, j + 1, visitOf)
  }

  lemma {:induction false} GroupOutcomesAt(groups: seq<TestamentMetadata>, j: nat, visitOf: string -> Visit, i: nat)
    requires j <= i < |groups|
    ensures GroupOutcomes(groups, j, visitOf)[i - j] == GroupOutcome(groups[i], i, visitOf)
    decreases i - j
  {
    if j < i {
      GroupOutcomesAt(groups, j + 1, visitOf, i);
      Seqs.ConsAt(GroupOutcome(groups[j], j, visitOf), GroupOutcomes(groups, j + 1, visitOf), i - j);
    }
  }

  /** The outcome of a run so far and the number of requests it made. */
  datatype RunState = RunState(outcome: Result<seq<GlobalEntry>, RunError>, requests: nat)

  /** The state of `scrape_data` after its first `k` iterations over `groups`, where iteration i
      yields `steps[i]`. Every entry is named after `groups[0]`, as line 129 does. */
  function Run(groups: seq<TestamentMetadata>, steps: seq<Result<seq<ChapterRecord>, RunError>>, k: nat): RunState
    requires k <= |groups| == |steps|
    decreases k
  {
    if k == 0 then RunState(Success([]), 0)
    else
      var p := Run(groups, steps, k - 1);
      var i := k - 1;
      var calls := p.requests + |groups[i].chapters|;
      if p.outcome.Failure? then p
      else if steps[i].Failure? then RunState(Failure(steps[i].error), calls)
      else RunState(Success(p.outcome.value + [GlobalEntry(groups[0].testamentName, FolderName(i), steps[i].value)]), calls)
  }

  /** Once an iteration has raised, later iterations never run. */
  lemma {:induction false} RunSticky(groups: seq<TestamentMetadata>, steps: seq<Result<seq<ChapterRecord>, RunError>>, i: nat, j: nat)
    requires i <= j <= |groups| == |steps|
    requires Run(groups, steps, i).outcome.Failure?
    ensures Run(groups, steps, j) == Run(groups, steps, i)
    decreases j
  {
    if j > i {
      RunSticky(groups, steps, i, j - 1);
    }
  }

  /** The number of chapters in a list of groups. */
  function TotalChapters(groups: seq<TestamentMetadata>): nat
    decreases |groups|
  {
    if groups == [] then 0 else TotalChapters(groups[..|groups| - 1]) + |groups[|groups| - 1].chapters|
  }

  /** A run succeeds iff every iteration does. Then it has one entry per group, in order, the i-th
      in folder `testament_<i>` with that iteration's records, all named after the first group, and
      it made one request per chapter. */
  lemma {:induction false} RunShape(groups: seq<TestamentMetadata>, steps: seq<Result<seq<ChapterRecord>, RunError>>, k: nat)
    requires k <= |groups| == |steps|
    ensures Run(groups, steps, k).outcome.Success? <==> forall i :: 0 <= i < k ==> steps[i].Success?
    ensures Run(groups, steps, k).outcome.Success? ==>
      var g := Run(groups, steps, k).outcome.value;
      |g| == k && Run(groups, steps, k).requests == TotalChapters(groups[..k]) &&
      forall i :: 0 <= i < k ==>
        g[i] == GlobalEntry(groups[0].testamentName, FolderName(i), steps[i].value)
    decreases k
  {
    if k > 0 {
      RunShape(groups, steps, k - 1);
      var p := Run(groups, steps, k - 1);
      if p.outcome.Failure? {
        var i :| 0 <= i < k - 1 && !steps[i].Success?;
      } else {
        assert groups[..k][..k - 1] == groups[..k - 1];
      }
    }
  }

  /** In the merge of a batch, every entry carries a chapter id and one of the batch's URLs; it is
      savable iff that URL's visit ended in a 200 download, and otherwise it has no "text". */
  lemma MergedBatchEntry(urls: seq<string>, visitOf: string -> Visit, m: map<string, ChapterConfig>, k: nat)
    requires k < |Merged(SequentialBatch(urls, visitOf), m)|
    ensures var e := Merged(SequentialBatch(urls, visitOf), m)[k];
      e.chapterId.Some? && e.chapterUrl.Some? && e.chapterUrl.value in urls &&
      (Savable(e) <==> Classify(visitOf(e.chapterUrl.value)) == Downloaded) &&
      (!Savable(e) ==> e.text.None?)
  {
    var results := SequentialBatch(urls, visitOf);
    SequentialBatchAt(urls, visitOf);
    MergeIsSubsequence(results, m);
    var j := KeptIndices(results, m)[k];
    assert results[j] == SequentialResult(urls[j], visitOf(urls[j]));
  }

  /** When every entry is savable or lacks "text" (and has a chapter id), a failing save fails
      with `KeyError` on "text". */
  lemma {:induction false} SaveFailsOnText(entries: seq<Entry>, folder: string)
    requires forall k :: 0 <= k < |entries| ==> entries[k].chapterId.Some? && (Savable(entries[k]) || entries[k].text.None?)
    ensures SaveAll(entries, folder).Failure? ==> SaveAll(entries, folder).error == MissingKey(TextKey)
    decreases |entries|
  {
    if entries != [] {
      var init := entries[..|entries| - 1];
      assert forall k :: 0 <= k < |init| ==> init[k] == entries[k];
      SaveFailsOnText(init, folder);
    }
  }

  /** A chapter whose audio download answers other than 200 gets a result with "chapter_url"
      and "error"; the merge keeps it, and saving it raises `KeyError` on "text", so the whole
      iteration of its group fails. */
  lemma HttpFailureAbortsGroup(g: TestamentMetadata, i: nat, visitOf: string -> Visit, j: nat)
    requires j < |g.chapters|
    requires Classify(visitOf(g.chapters[j].chapterUrl)) == HttpFailure
    ensures GroupOutcome(g, i, visitOf) == Failure(SaveFailed(i, MissingKey(TextKey)))
  {
    var urls := UrlsOf(g.chapters);
    var m := ChapterMap(g.chapters);
    var results := SequentialBatch(urls, visitOf);
    var merged := Merged(results, m);
    UrlsOfAt(g.chapters);
    SequentialBatchAt(urls, visitOf);
    ChapterMapLastWins(g.chapters, urls[j]);
    assert Matches(results[j], m);
    MergeIsSubsequence(results, m);
    var kept := KeptIndices(results, m);
    var k :| 0 <= k < |kept| && kept[k] == j;
    assert !Savable(merged[k]);
    forall n | 0 <= n < |merged|
      ensures merged[n].chapterId.Some? && (Savable(merged[n]) || merged[n].text.None?)
    {
      MergedBatchEntry(urls, visitOf, m, n);
    }
    SaveAllOk(merged, FolderName(i));
    SaveFailsOnText(merged, FolderName(i));
  }

  /** Every record a group's iteration saves comes from one of its chapters whose visit ended in a
      200 download; chapters without an audio player or whose visit raised leave no record. */
  lemma GroupRecordsAreDownloads(g: TestamentMetadata, i: nat, visitOf: string -> Visit)
    requires GroupOutcome(g, i, visitOf).Success?
    ensures |GroupOutcome(g, i, visitOf).value| <= |g.chapters|
    ensures forall r :: r in GroupOutcome(g, i, visitOf).value ==>
      r.chapterUrl in UrlsOf(g.chapters) && Classify(visitOf(r.chapterUrl)) == Downloaded
  {
    var urls := UrlsOf(g.chapters);
    var m := ChapterMap(g.chapters);
    var results := SequentialBatch(urls, visitOf);
    var merged := Merged(results, m);
    var rs := GroupOutcome(g, i, visitOf).value;
    assert SaveAll(merged, FolderName(i)) == Success(rs);
    SaveAllOk(merged, FolderName(i));
    MergedLength(results, m);
    UrlsOfAt(g.chapters);
    SequentialBatchAt(urls, visitOf);
    forall r | r in rs
      ensures r.chapterUrl in urls && Classify(visitOf(r.chapterUrl)) == Downloaded
    {
      var k :| 0 <= k < |rs| && rs[k] == r;
      MergedBatchEntry(urls, visitOf, m, k);
    }
  }

  /** Position i of a fetched batch survives the merge iff its visit reached the audio download
      (200 or not) and its URL is a configured chapter URL: results without an audio player or
      whose visit raised carry only "url" and are dropped, HTTP failures are kept. */
  lemma BatchKeptIff(urls: seq<string>, visitOf: string -> Visit, m: map<string, ChapterConfig>, i: nat)
    requires i < |urls|
    ensures i in KeptIndices(SequentialBatch(urls, visitOf), m) <==>
      Classify(visitOf(urls[i])) in {Downloaded, HttpFailure} && urls[i] in m
  {
    var results := SequentialBatch(urls, visitOf);
    SequentialBatchAt(urls, visitOf);
    MergeIsSubsequence(results, m);
    assert results[i] == SequentialResult(urls[i], visitOf(urls[i]));
  }

  /** One chapter of a processed group whose audio download answers other than 200 aborts the
      whole run: `scrape_data` raises and global_metadata.json is never written. */
  lemma HttpFailureAbortsRun(groups: seq<TestamentMetadata>, visitOf: string -> Visit, i: nat, j: nat)
    requires i < |groups| && j < |groups[i].chapters|
    requires Classify(visitOf(groups[i].chapters[j].chapterUrl)) == HttpFailure
    ensures Run(groups, GroupOutcomes(groups, 0, visitOf), |groups|).outcome.Failure?
  {
    var steps := GroupOutcomes(groups, 0, visitOf);
    GroupOutcomesAt(groups, 0, visitOf, i);
    HttpFailureAbortsGroup(groups[i], i, visitOf, j);
    RunShape(groups, steps, |groups|);
  }

  // ---------------------------------------------------------------------------------------------
  // The bot

  class BibleScraperBot {
    var siteUrl: string
    var baseUrl: string
    var driverPath: string
    /** None until `load_base_url` reaches its parse step (the attribute does not exist yet). */
    var chaptersMetadata: Option<seq<TestamentMetadata>>

    /** `__init__` (scrape_bot.py:35-39). */
    constructor (url: string, driverPath: string := "chromedriver")
      ensures siteUrl == url && baseUrl == BaseUrl(url) && this.driverPath == driverPath
      ensures chaptersMetadata.None?
    {
      siteUrl := url;
      baseUrl := BaseUrl(url);
      this.driverPath := driverPath;
      chaptersMetadata := None;
    }

    /** `_parse_drop_down` (scrape_bot.py:95-109): one config per link, in order, its URL resolved
        against the site base by `join` (standing in for `urljoin`). */
    method ParseDropDown(div: BookDiv, join: (string, string) -> string) returns (t: TestamentMetadata)
      ensures t.testamentName == div.heading
      ensures |t.chapters| == |div.links|
      ensures forall i :: 0 <= i < |div.links| ==>
        t.chapters[i] == ChapterConfig(div.links[i].spanText, join(baseUrl, div.links[i].href))
    {
      var chapters: seq<ChapterConfig> := [];
      var i := 0;
      while i < |div.links|
        invariant 0 <= i <= |div.links|
        invariant |chapters| == i
        invariant forall k :: 0 <= k < i ==>
          chapters[k] == ChapterConfig(div.links[k].spanText, join(baseUrl, div.links[k].href))
      {
        var link := div.links[i];
        chapters := chapters + [ChapterConfig(link.spanText, join(baseUrl, link.href))];
        i := i + 1;
      }
      t := TestamentMetadata(div.heading, chapters);
    }

    /** `load_base_url` (scrape_bot.py:48-93) after the browser steps. `menu` is None when the
        page never became ready (an exception before line 73 leaves the attribute as it was);
        otherwise it holds the `book-button` divs in document order. */
    method LoadBaseUrl(menu: Option<seq<BookDiv>>, join: (string, string) -> string)
      modifies this
      ensures siteUrl == old(siteUrl) && baseUrl == old(baseUrl) && driverPath == old(driverPath)
      ensures menu.None? ==> chaptersMetadata == old(chaptersMetadata)
      ensures menu.Some? ==> chaptersMetadata.Some? && |chaptersMetadata.value| == |menu.value|
      ensures menu.Some? ==> forall i :: 0 <= i < |menu.value| ==>
        chaptersMetadata.value[i].testamentName == menu.value[i].heading &&
        |chaptersMetadata.value[i].chapters| == |menu.value[i].links|
      ensures menu.Some? ==> forall i, k :: 0 <= i < |menu.value| && 0 <= k < |menu.value[i].links| ==>
        chaptersMetadata.value[i].chapters[k] ==
          ChapterConfig(menu.value[i].links[k].spanText, join(baseUrl, menu.value[i].links[k].href))
    {
      if menu.None? {
        return;
      }
      var divs := menu.value;
      var parsed: seq<TestamentMetadata> := [];
      var i := 0;
      while i < |divs|
        invariant 0 <= i <= |divs|
        invariant unchanged(this)
        invariant |parsed| == i
        invariant forall k :: 0 <= k < i ==>
          parsed[k].testamentName == divs[k].heading && |parsed[k].chapters| == |divs[k].links|
        invariant forall k, n :: 0 <= k < i && 0 <= n < |divs[k].links| ==>
          parsed[k].chapters[n] == ChapterConfig(divs[k].links[n].spanText, join(baseUrl, divs[k].links[n].href))
      {
        var t := ParseDropDown(divs[i], join);
        parsed := parsed + [t];
        i := i + 1;
      }
      chaptersMetadata := Some(parsed);
    }

    /** `_gather_urls` (scrape_bot.py:186-191). It does not read the bot's fields. */
    static method GatherUrls(configs: TestamentMetadata) returns (urls: seq<string>)
      ensures |urls| == |configs.chapters|
      ensures forall i :: 0 <= i < |urls| ==> urls[i] == configs.chapters[i].chapterUrl
    {
      urls := [];
      var i := 0;
      while i < |configs.chapters|
        invariant 0 <= i <= |configs.chapters|
        invariant |urls| == i
        invariant forall k :: 0 <= k < i ==> urls[k] == configs.chapters[k].chapterUrl
      {
        urls := urls + [configs.chapters[i].chapterUrl];
        i := i + 1;
      }
    }

    /** `merge_list_on_url` (scrape_bot.py:165-184). Entries with an "error" key are printed but
        kept like any other. */
    static method MergeListOnUrl(dictList: seq<Entry>, dataclassList: seq<ChapterConfig>) returns (mergedList: seq<Entry>)
      ensures mergedList == Merged(dictList, ChapterMap(dataclassList))
    {
      var chapterMap := ChapterMap(dataclassList);
      mergedList := [];
      var i := 0;
      while i < |dictList|
        invariant 0 <= i <= |dictList|
        invariant mergedList == Merged(dictList[..i], chapterMap)
      {
        assert dictList[..i + 1][..i] == dictList[..i];
        var entry := dictList[i];
        if entry.chapterUrl.Some? && entry.chapterUrl.value in chapterMap {
          mergedList := mergedList + [entry.(chapterId := Some(chapterMap[entry.chapterUrl.value].chapterId))];
        }
        i := i + 1;
      }
      assert dictList[..|dictList|] == dictList;
    }

    /** `process_and_save_data` (scrape_bot.py:138-162) without the writes: the records, or the
        error the first unsavable entry raises. It does not read the bot's fields. */
    static method ProcessAndSaveData(mergedData: seq<Entry>, folderName: string) returns (r: Result<seq<ChapterRecord>, SaveError>)
      ensures r == SaveAll(mergedData, folderName)
    {
      var localMetadata: seq<ChapterRecord> := [];
      var i := 0;
      while i < |mergedData|
        invariant 0 <= i <= |mergedData|
        invariant SaveAll(mergedData[..i], folderName) == Success(localMetadata)
      {
        assert mergedData[..i + 1][..i] == mergedData[..i];
        var data := mergedData[i];
        var saved := SaveEntry(data, folderName);
        if saved.Failure? {
          SaveAllSticky(mergedData, folderName, i + 1, |mergedData|);
          assert mergedData[..|mergedData|] == mergedData;
          return Failure(saved.error);
        }
        localMetadata := localMetadata + [saved.value];
        i := i + 1;
      }
      assert mergedData[..|mergedData|] == mergedData;
      r := Success(localMetadata);
    }

    /** The body of the loop in `scrape_data` (scrape_bot.py:119-128) for the i-th processed group:
        gather its URLs, fetch them in sequence, merge the results by URL, save the records. */
    static method ScrapeGroup(state: ScraperState, groups: seq<TestamentMetadata>, i: nat, visitOf: string -> Visit)
      returns (outcome: Result<seq<ChapterRecord>, RunError>)
      requires i < |groups|
      modifies state
      ensures outcome == GroupOutcomes(groups, 0, visitOf)[i]
      ensures state.requestCount == old(state.requestCount) + |groups[i].chapters|
    {
      GroupOutcomesAt(groups, 0, visitOf, i);
      var group := groups[i];
      var folderName := FolderName(i);
      var urls := GatherUrls(group);
      UrlsOfAt(group.chapters);
      assert urls == UrlsOf(group.chapters);
      if |urls| == 0 {
        return Failure(EmptyUrlList(i));
      }
      var results, _ := state.FetchDataNonasync(urls, visitOf);
      SequentialBatchAt(urls, visitOf);
      assert results == SequentialBatch(urls, visitOf);
      var mergedData := MergeListOnUrl(results, group.chapters);
      var finalResult := ProcessAndSaveData(mergedData, folderName);
      if finalResult.Failure? {
        return Failure(SaveFailed(i, finalResult.error));
      }
      outcome := Success(finalResult.value);
      assert outcome == GroupOutcome(group, i, visitOf);
    }

    /** `scrape_data` (scrape_bot.py:111-136) with the sequential fetcher, whose module state is
        `state`. On success `r` holds the list dumped to global_metadata.json. */
    method ScrapeData(state: ScraperState, visitOf: string -> Visit) returns (r: Result<seq<GlobalEntry>, RunError>)
      modifies state
      ensures chaptersMetadata.None? ==>
        r == Failure(NoChaptersMetadata) && state.requestCount == old(state.requestCount)
      ensures chaptersMetadata.Some? ==>
        var groups := Resumed(chaptersMetadata.value);
        var run := Run(groups, GroupOutcomes(groups, 0, visitOf), |groups|);
        r == run.outcome && state.requestCount == old(state.requestCount) + run.requests
    {
      if chaptersMetadata.None? {
        return Failure(NoChaptersMetadata);
      }
      var newTestaments := Resumed(chaptersMetadata.value);
      ghost var steps := GroupOutcomes(newTestaments, 0, visitOf);
      var globalMetadata: seq<GlobalEntry> := [];
      var i := 0;
      while i < |newTestaments|
        invariant 0 <= i <= |newTestaments|
        invariant Run(newTestaments, steps, i).outcome == Success(globalMetadata)
        invariant state.requestCount == old(state.requestCount) + Run(newTestaments, steps, i).requests
      {
        var finalResult := ScrapeGroup(state, newTestaments, i, visitOf);
        if finalResult.Failure? {
          RunSticky(newTestaments, steps, i + 1, |newTestaments|);
          return Failure(finalResult.error);
        }
        globalMetadata := globalMetadata + [GlobalEntry(newTestaments[0].testamentName, FolderName(i), finalResult.value)];
        i := i + 1;
      }
      r := Success(globalMetadata);
    }
  }
}
