/** The extraction service's main loop (services/web_extractor/web_extractor.py):
    when to run, which topics are due, and the item records it sends to
    the API after each topic's search.

    One call of `Service.Round` is one pass of the `while True` body. The
    clock is read once per round (`now`), the shared trigger file is the
    argument `shared`, the API answers are `topics` and `itemsOf`, the
    search step is the function `search` (its own model is
    `WebSearchExtractor.GetSearchAndExtractions`), and `uuid4` is the
    service's `ids` sequence. The API calls the round makes are recorded,
    in order, in `calls`; what the topic loop does is specified by
    `TopicsPass`. */
module WebExtractor {
  import opened Common
  import opened Extractor
  import opened WebSearchExtractor

  /** `sec_between_scheduled_runs`. */
  const ScheduledRunGap := 3600
  /** How far back a topic that was never extracted is searched. */
  const DefaultLookBack := 31 * 86400
  const S3Prefix := "All"

  /** `frequency_map_in_sec.get(frequency, 0)`. */
  function FrequencySeconds(frequency: string): (r: nat)
    ensures frequency == "daily" ==> r == 86400
    ensures frequency == "twice a day" ==> r == 43200
    ensures frequency == "hourly" ==> r == 3600
    ensures frequency == "weekly" ==> r == 7 * 86400
    ensures frequency !in {"daily", "twice a day", "hourly", "weekly"} ==> r == 0
    ensures r < DefaultLookBack
  {
    match frequency
    case "daily" => 86400
    case "twice a day" => 43200
    case "hourly" => 3600
    case "weekly" => 86400 * 7
    case _ => 0
  }

  /** `get_api_base_url`: the local or the cloud url, `ValueError` for any
      other environment name. The bookmarks script reads the same two urls
      from the environment, where they may be unset. */
  function ApiBaseUrl<T>(env: string, local: T, cloud: T): (r: Result<T, string>)
    ensures r.Ok? <==> env in {"local", "cloud"}
    ensures env == "local" ==> r == Ok(local)
    ensures env == "cloud" ==> r == Ok(cloud)
    ensures r.Err? ==> r.error == "ValueError"
  {
    if env == "local" then Ok(local)
    else if env == "cloud" then Ok(cloud)
    else Err("ValueError")
  }

  /** The shared trigger file: absent, unreadable (bad JSON, missing key),
      or holding `last_time_topics_changed`. */
  datatype SharedFile = Missing | Unreadable | Stamp(changed: int)

  /** Whether a round runs, and the new `last_time_topics_changed_local`. */
  datatype Trigger = Trigger(run: bool, changedLocal: int)

  /** The start of a round: a scheduled run when the last completed round is
      more than an hour old, otherwise a run triggered by a stamp newer than
      the last one acted on. */
  function Schedule(lastRun: int, changedLocal: int, now: int, shared: SharedFile): (r: Trigger)
    ensures lastRun + ScheduledRunGap < now ==> r == Trigger(true, now)
    ensures lastRun + ScheduledRunGap >= now ==>
              (r.run <==> shared.Stamp? && shared.changed > changedLocal) &&
              r.changedLocal == (if r.run then shared.changed else changedLocal)
  {
    if lastRun + ScheduledRunGap < now then Trigger(true, now)
    else if shared.Stamp? && shared.changed > changedLocal then Trigger(true, shared.changed)
    else Trigger(false, changedLocal)
  }

  /** A stamp triggers at most one run: once acted on, the same file does
      not trigger again until a scheduled run is due. */
  lemma StampTriggersOnce(lastRun: int, changedLocal: int, now: int, later: int, changed: int)
    requires lastRun + ScheduledRunGap >= now && lastRun + ScheduledRunGap >= later
    requires Schedule(lastRun, changedLocal, now, Stamp(changed)).run
    ensures !Schedule(lastRun, Schedule(lastRun, changedLocal, now, Stamp(changed)).changedLocal, later, Stamp(changed)).run
  {
  }

  /** The topics the loop looks at: web and news topics, except web topics
      that were already extracted once. */
  predicate Considered(t: Topic)
  {
    t.topicType in {"web", "news"} && !(t.lastExtraction.Some? && t.topicType == "web")
  }

  /** `topic.get("last_extraction_epoch", now - 31 days)`. */
  function LastExtractionOf(t: Topic, now: int): (r: int)
    ensures t.lastExtraction.Some? ==> r == t.lastExtraction.value
    ensures t.lastExtraction.None? ==> r == now - DefaultLookBack
  {
    if t.lastExtraction.Some? then t.lastExtraction.value else now - DefaultLookBack
  }

  /** A topic is due when its frequency has elapsed since its last extraction. */
  predicate Due(t: Topic, now: int)
  {
    now > LastExtractionOf(t, now) + FrequencySeconds(t.frequency)
  }

  /** The topics a round extracts. */
  predicate DueTopic(t: Topic, now: int)
  {
    Considered(t) && Due(t, now)
  }

  /** A topic never extracted is due at once, whatever its frequency. */
  lemma NeverExtractedIsDue(t: Topic, now: int)
    requires t.lastExtraction.None?
    ensures Due(t, now)
  {
  }

  /** A web topic is extracted once: after its extraction time is stored it
      is no longer considered. */
  lemma WebTopicRunsOnce(t: Topic, epoch: int)
    requires t.topicType == "web"
    ensures !Considered(t.(lastExtraction := Some(epoch)))
  {
  }

  /** The known urls: the sources of the topic's items without their query. */
  function KnownUrls(sources: seq<string>): (r: seq<string>)
    ensures |r| == |sources|
    ensures forall i :: 0 <= i < |sources| ==> '?' !in r[i] && |r[i]| <= |sources[i]| && r[i] == sources[i][..|r[i]|]
    ensures forall i :: 0 <= i < |sources| && '?' !in sources[i] ==> r[i] == sources[i]
  {
    seq(|sources|, i requires 0 <= i < |sources| => BeforeFirst(sources[i], '?'))
  }

  /** Cutting the query is idempotent: the known urls of known urls are themselves. */
  lemma KnownUrlsIdempotent(sources: seq<string>)
    ensures KnownUrls(KnownUrls(sources)) == KnownUrls(sources)
  {
  }

  /** A document of `insert_items`. */
  datatype SingleRecord = SingleRecord(id: string, topicId: string, itemName: string, source: string,
                                       title: string, value: string, audioName: string,
                                       comments: seq<string>, done: bool, createdOn: int, modifiedOn: int)

  /** A document of `insert_multi_items`. */
  datatype MultiRecord = MultiRecord(id: string, topicId: string, items: seq<NamedValue>, source: string,
                                     title: string, comments: seq<string>, done: bool,
                                     createdOn: int, modifiedOn: int)

  /** The audio file of an item is named after its id. */
  function AudioName(id: string): string
  {
    id + ".mp3"
  }

  /** Distinct ids give distinct audio files. */
  lemma AudioNameInjective(a: string, b: string)
    requires a != b
    ensures AudioName(a) != AudioName(b)
  {
    if |a| == |b| {
      var i :| 0 <= i < |a| && a[i] != b[i];
      assert AudioName(a)[i] == a[i] && AudioName(b)[i] == b[i];
    }
  }

  /** A record as the round creates it: new, not done, no comments, created
      and modified now, the audio named after the id. */
  predicate FreshSingle(r: SingleRecord, now: int)
  {
    r.audioName == AudioName(r.id) && r.comments == [] && !r.done && r.createdOn == now && r.modifiedOn == now
  }

  predicate FreshMulti(r: MultiRecord, now: int)
  {
    r.comments == [] && !r.done && r.createdOn == now && r.modifiedOn == now
  }

  function SingleRecordOf(topicId: string, res: SingleResult, id: string, now: int): SingleRecord
  {
    SingleRecord(id, topicId, res.itemName, res.url, res.title, res.value, AudioName(id), [], false, now, now)
  }

  function MultiRecordOf(topicId: string, res: MultiResult, id: string, now: int): MultiRecord
  {
    MultiRecord(id, topicId, res.items, res.url, res.title, [], false, now, now)
  }

  /** The records of the single results, the k-th taking the k-th id drawn
      from `first` on. */
  function SingleRecords(topicId: string, results: seq<SingleResult>, ids: nat -> string, first: nat, now: int)
    : seq<SingleRecord>
  {
    seq(|results|, k requires 0 <= k < |results| => SingleRecordOf(topicId, results[k], ids(first + k), now))
  }

  /** Every single record belongs to the topic and is new. */
  lemma SingleRecordsFresh(topicId: string, results: seq<SingleResult>, ids: nat -> string, first: nat, now: int)
    ensures forall r :: r in SingleRecords(topicId, results, ids, first, now) ==> r.topicId == topicId && FreshSingle(r, now)
  {
    var rs := SingleRecords(topicId, results, ids, first, now);
    forall r | r in rs
      ensures r.topicId == topicId && FreshSingle(r, now)
    {
      var k :| 0 <= k < |rs| && rs[k] == r;
    }
  }

  function MultiRecords(topicId: string, results: seq<MultiResult>, ids: nat -> string, first: nat, now: int)
    : seq<MultiRecord>
  {
    seq(|results|, k requires 0 <= k < |results| => MultiRecordOf(topicId, results[k], ids(first + k), now))
  }

  /** Every multi record belongs to the topic and is new. */
  lemma MultiRecordsFresh(topicId: string, results: seq<MultiResult>, ids: nat -> string, first: nat, now: int)
    ensures forall r :: r in MultiRecords(topicId, results, ids, first, now) ==> r.topicId == topicId && FreshMulti(r, now)
  {
    var rs := MultiRecords(topicId, results, ids, first, now);
    forall r | r in rs
      ensures r.topicId == topicId && FreshMulti(r, now)
    {
      var k :| 0 <= k < |rs| && rs[k] == r;
    }
  }

  /** With distinct ids the records of one topic have distinct audio files. */
  lemma SingleRecordsDistinctAudio(topicId: string, results: seq<SingleResult>, ids: nat -> string, first: nat, now: int)
    requires forall m, n :: m != n ==> ids(m) != ids(n)
    ensures var rs := SingleRecords(topicId, results, ids, first, now);
            forall j, k :: 0 <= j < k < |rs| ==> rs[j].audioName != rs[k].audioName
  {
    var rs := SingleRecords(topicId, results, ids, first, now);
    forall j, k | 0 <= j < k < |rs|
      ensures rs[j].audioName != rs[k].audioName
    {
      AudioNameInjective(ids(first + j), ids(first + k));
    }
  }

  /** The text read aloud for a single record. */
  function SpokenText(r: SingleRecord): string
  {
    "Title: \n " + r.title + " \n" + "Summary: \n " + r.value + " \n"
  }

  /** The spoken text reads out the record's title and its value. */
  lemma SpokenTextMentions(r: SingleRecord)
    ensures Occurs(r.title, SpokenText(r)) && Occurs(r.value, SpokenText(r))
  {
    var title := "Title: \n " + r.title + " \n";
    var s := SpokenText(r);
    assert OccursAt(r.title, s, 9) by {
      assert s[9..9 + |r.title|] == r.title;
    }
    assert OccursAt(r.value, s, |title| + 11) by {
      assert s[|title| + 11..|title| + 11 + |r.value|] == r.value;
    }
  }

  /** Where the audio of a record is uploaded. */
  function AudioPath(r: SingleRecord): (p: string)
    ensures p == S3Prefix + "/" + r.audioName
  {
    S3Prefix + "/" + r.audioName
  }

  /** The search step of a round, `get_search_and_extractions`, as a function
      of the topic, its last extraction time and its known urls. What that
      step does is `WebSearchExtractor.GetSearchAndExtractions`; the round is
      proved for every search. */
  type Searcher = (Topic, int, seq<string>) -> SearchOutcome

  /** The calls a round makes, in order. `Search` is the call of
      `get_search_and_extractions`; `Synthesize(r)` the synthesis of
      `SpokenText(r)` and its upload to `AudioPath(r)`, whose errors the loop
      catches. The writes (`InsertItems`, `InsertMultiItems`, `UpdateTopic`)
      go through `post_data` and `put_data`, which catch request errors but
      not the plain `Exception` a token refresh raises when the refresh
      answer has no access token; such a write ends the round. */
  datatype Call =
    | GetTopics
    | GetItems(topicId: string, user: string)
    | Search(topicId: string, lastExtraction: int, known: seq<string>)
    | InsertItems(records: seq<SingleRecord>)
    | Synthesize(record: SingleRecord)
    | InsertMultiItems(multiRecords: seq<MultiRecord>)
    | UpdateTopic(topicId: string, epoch: int)

  /** The calls that write through `post_data` or `put_data`. */
  predicate IsWrite(c: Call)
  {
    c.InsertItems? || c.InsertMultiItems? || c.UpdateTopic?
  }

  /** Which writes raise; no other call does. A raising write is made and
      then ends the round. */
  type Raises = f: Call -> bool | forall c :: f(c) ==> IsWrite(c) witness (c: Call) => false

  /** The items request answers `None` (iterating it raises, as does a
      request that raised) or the sources of the topic's items. */
  type ItemsOf = (string, string) -> Option<seq<string>>

  /** The known urls of a topic whose items were read. */
  function TopicKnown(t: Topic, itemsOf: ItemsOf): seq<string>
    requires itemsOf(t.id, t.user).Some?
  {
    KnownUrls(itemsOf(t.id, t.user).value)
  }

  /** The search a topic whose items were read gets. */
  function TopicSearch(t: Topic, now: int, itemsOf: ItemsOf, search: Searcher): SearchOutcome
    requires itemsOf(t.id, t.user).Some?
  {
    search(t, LastExtractionOf(t, now), TopicKnown(t, itemsOf))
  }

  /** Processing a due topic raises before any write: its items could not
      be read, or its search raised. */
  predicate ReadFails(t: Topic, now: int, itemsOf: ItemsOf, search: Searcher)
  {
    itemsOf(t.id, t.user).None? || TopicSearch(t, now, itemsOf, search).SearchRaised?
  }

  /** The speech calls for the inserted records, one per record in order. */
  function SpeechCalls(records: seq<SingleRecord>): seq<Call>
  {
    seq(|records|, k requires 0 <= k < |records| => Synthesize(records[k]))
  }

  /** The calls after a successful search: the inserts (each only when
      non-empty, speech after the single insert), then the topic's new
      extraction time. */
  function InsertCalls(t: Topic, singles: seq<SingleRecord>, multis: seq<MultiRecord>, now: int): seq<Call>
  {
    (if singles == [] then [] else [InsertItems(singles)] + SpeechCalls(singles)) +
    (if multis == [] then [] else [InsertMultiItems(multis)]) +
    [UpdateTopic(t.id, now)]
  }

  /** The single insert comes first and is followed by one speech call per
      record; each insert happens exactly when it has records; the last call
      stores the extraction time. */
  lemma InsertCallsShape(t: Topic, singles: seq<SingleRecord>, multis: seq<MultiRecord>, now: int)
    ensures var r := InsertCalls(t, singles, multis, now);
            |r| == (if singles == [] then 0 else |singles| + 1) + (if multis == [] then 0 else 1) + 1 &&
            r[|r| - 1] == UpdateTopic(t.id, now) &&
            (singles != [] ==> r[0] == InsertItems(singles) &&
                               forall k :: 0 <= k < |singles| ==> r[k + 1] == Synthesize(singles[k])) &&
            (InsertItems(singles) in r <==> singles != []) &&
            (InsertMultiItems(multis) in r <==> multis != [])
  {
    InsertCallsLayout(t, singles, multis, now);
    InsertCallsInserts(t, singles, multis, now);
  }

  /** Where each call of the writes stands. */
  lemma InsertCallsLayout(t: Topic, singles: seq<SingleRecord>, multis: seq<MultiRecord>, now: int)
    ensures var r := InsertCalls(t, singles, multis, now);
            |r| == (if singles == [] then 0 else |singles| + 1) + (if multis == [] then 0 else 1) + 1 &&
            r[|r| - 1] == UpdateTopic(t.id, now) &&
            (singles != [] ==> r[0] == InsertItems(singles) &&
                               forall k :: 0 <= k < |singles| ==> r[k + 1] == Synthesize(singles[k]))
  {
    var r := InsertCalls(t, singles, multis, now);
    var spoken := if singles == [] then [] else [InsertItems(singles)] + SpeechCalls(singles);
    var inserted := if multis == [] then [] else [InsertMultiItems(multis)];
    assert r == spoken + inserted + [UpdateTopic(t.id, now)];
    if singles != [] {
      forall k | 0 <= k < |singles|
        ensures r[k + 1] == Synthesize(singles[k])
      {
        assert r[k + 1] == spoken[k + 1];
      }
    }
  }

  /** Each insert is among the writes exactly when it has records. */
  lemma InsertCallsInserts(t: Topic, singles: seq<SingleRecord>, multis: seq<MultiRecord>, now: int)
    ensures var r := InsertCalls(t, singles, multis, now);
            (InsertItems(singles) in r <==> singles != []) &&
            (InsertMultiItems(multis) in r <==> multis != [])
  {
    var r := InsertCalls(t, singles, multis, now);
    var spoken := if singles == [] then [] else [InsertItems(singles)] + SpeechCalls(singles);
    var inserted := if multis == [] then [] else [InsertMultiItems(multis)];
    var writes := spoken + inserted;
    assert r == writes + [UpdateTopic(t.id, now)];
    assert forall k :: 0 <= k < |spoken| ==> spoken[k].InsertItems? || spoken[k].Synthesize?;
    assert InsertItems(singles) in r <==> InsertItems(singles) in writes;
    assert InsertItems(singles) in writes <==> InsertItems(singles) in spoken;
    assert InsertMultiItems(multis) in r <==> InsertMultiItems(multis) in writes;
    assert InsertMultiItems(multis) in writes <==> InsertMultiItems(multis) in inserted;
  }

  /** What one call of a round says about the topic it was made for. */
  predicate CallOfTopic(c: Call, t: Topic, now: int)
  {
    match c
    case GetTopics => false
    case GetItems(id, user) => id == t.id && user == t.user
    case Search(id, last, _) => id == t.id && last == LastExtractionOf(t, now)
    case InsertItems(rs) => rs != [] && forall r :: r in rs ==> r.topicId == t.id && FreshSingle(r, now)
    case Synthesize(r) => r.topicId == t.id && FreshSingle(r, now)
    case InsertMultiItems(rs) => rs != [] && forall r :: r in rs ==> r.topicId == t.id && FreshMulti(r, now)
    case UpdateTopic(id, epoch) => id == t.id && epoch == now
  }

  /** The inserts of records made for a topic are calls for that topic. */
  lemma InsertCallsOfTopic(t: Topic, singles: seq<SingleRecord>, multis: seq<MultiRecord>, now: int)
    requires forall r :: r in singles ==> r.topicId == t.id && FreshSingle(r, now)
    requires forall r :: r in multis ==> r.topicId == t.id && FreshMulti(r, now)
    ensures forall c :: c in InsertCalls(t, singles, multis, now) ==> CallOfTopic(c, t, now)
  {
    forall c | c in SpeechCalls(singles)
      ensures CallOfTopic(c, t, now)
    {
      var k :| 0 <= k < |singles| && SpeechCalls(singles)[k] == c;
      assert singles[k] in singles;
    }
  }

  /** What processing topics did: the calls made, how many ids were drawn,
      and whether no topic raised. */
  datatype Pass = Pass(calls: seq<Call>, used: nat, ok: bool)

  /** The loop body for a due topic, drawing ids from `first` on: read the
      items, search, then insert the single records, the multi records and
      the new extraction time. */
  function TopicPass(t: Topic, now: int, itemsOf: ItemsOf, search: Searcher, ids: nat -> string, first: nat,
                     raises: Raises): Pass
  {
    if itemsOf(t.id, t.user).None? then Pass([GetItems(t.id, t.user)], 0, false)
    else
      var known := TopicKnown(t, itemsOf);
      var outcome := TopicSearch(t, now, itemsOf, search);
      var head := [GetItems(t.id, t.user), Search(t.id, LastExtractionOf(t, now), known)];
      if outcome.SearchRaised? then Pass(head, 0, false)
      else
        var inserted := FoundPass(t, outcome, ids, first, now, raises);
        Pass(head + inserted.calls, inserted.used, inserted.ok)
  }

  /** The pass of a topic whose items were read and whose search completed
      is the read, the search, then the writes. */
  lemma TopicPassFound(t: Topic, now: int, itemsOf: ItemsOf, search: Searcher, ids: nat -> string, first: nat,
                       raises: Raises, f: Pass)
    requires itemsOf(t.id, t.user).Some? && TopicSearch(t, now, itemsOf, search).Found?
    requires f == FoundPass(t, TopicSearch(t, now, itemsOf, search), ids, first, now, raises)
    ensures TopicPass(t, now, itemsOf, search, ids, first, raises) ==
            Pass([GetItems(t.id, t.user), Search(t.id, LastExtractionOf(t, now), TopicKnown(t, itemsOf))] + f.calls,
                 f.used, f.ok)
  {
  }

  /** After a successful search: the single records take the ids from
      `first` on, the multi records the ids after them, and then come the
      writes. The multi records are made only when the single insert did
      not raise. */
  function FoundPass(t: Topic, outcome: SearchOutcome, ids: nat -> string, first: nat, now: int, raises: Raises): Pass
    requires outcome.Found?
  {
    var singles := SingleRecords(t.id, outcome.singles, ids, first, now);
    var multis := MultiRecords(t.id, outcome.multis, ids, first + |outcome.singles|, now);
    var w := Writes(t, singles, multis, now, raises);
    var used := if singles != [] && raises(InsertItems(singles)) then |outcome.singles|
                else |outcome.singles| + |outcome.multis|;
    Pass(w.0, used, w.1)
  }

  /** The writes for the records and whether the pass goes on: the single
      records are inserted, then read aloud; the multi records are
      inserted; then the topic's new extraction time is stored. A raising
      write ends the pass. */
  function Writes(t: Topic, singles: seq<SingleRecord>, multis: seq<MultiRecord>, now: int, raises: Raises)
    : (seq<Call>, bool)
  {
    if singles != [] && raises(InsertItems(singles)) then ([InsertItems(singles)], false)
    else
      var spoken := if singles == [] then [] else [InsertItems(singles)] + SpeechCalls(singles);
      if multis != [] && raises(InsertMultiItems(multis)) then (spoken + [InsertMultiItems(multis)], false)
      else
        var inserted := if multis == [] then [] else [InsertMultiItems(multis)];
        (spoken + inserted + [UpdateTopic(t.id, now)], !raises(UpdateTopic(t.id, now)))
  }

  /** The writes made are the insert calls up to the first raising write,
      and the pass goes on exactly when none raises. */
  lemma WritesStop(t: Topic, singles: seq<SingleRecord>, multis: seq<MultiRecord>, now: int, raises: Raises)
    ensures var all := InsertCalls(t, singles, multis, now);
            var w := Writes(t, singles, multis, now, raises);
            w.0 == UpToFirst(all, raises) && (w.1 <==> NoneStop(all, raises))
  {
    var all := InsertCalls(t, singles, multis, now);
    var w := Writes(t, singles, multis, now, raises);
    var stops := raises;
    var spoken := if singles == [] then [] else [InsertItems(singles)] + SpeechCalls(singles);
    var inserted := if multis == [] then [] else [InsertMultiItems(multis)];
    assert all == spoken + inserted + [UpdateTopic(t.id, now)];
    assert forall k :: 1 <= k < |spoken| ==> !stops(spoken[k]);
    if singles != [] && raises(InsertItems(singles)) {
      assert w.0 == all[..1] && stops(all[0]);
      UpToFirstUnique(all, stops, w.0);
    } else {
      assert NoneStop(spoken, stops);
      if multis != [] && raises(InsertMultiItems(multis)) {
        assert w.0 == all[..|spoken| + 1] && stops(all[|spoken|]);
        UpToFirstUnique(all, stops, w.0);
      } else {
        assert w.0 == all && NoneStop(inserted, stops);
        NoneStopAppend(spoken, inserted, stops);
        NoneStopAppend(spoken + inserted, [UpdateTopic(t.id, now)], stops);
        assert NoneStop([UpdateTopic(t.id, now)], stops) <==> !raises(UpdateTopic(t.id, now)) by {
          assert [UpdateTopic(t.id, now)][0] == UpdateTopic(t.id, now);
        }
        UpToFirstUnique(all, stops, w.0);
      }
    }
  }

  /** The calls after a successful search are the insert calls up to the
      first raising write, and the pass goes on exactly when none raises. */
  lemma FoundPassStops(t: Topic, outcome: SearchOutcome, ids: nat -> string, first: nat, now: int, raises: Raises)
    requires outcome.Found?
    ensures var singles := SingleRecords(t.id, outcome.singles, ids, first, now);
            var multis := MultiRecords(t.id, outcome.multis, ids, first + |outcome.singles|, now);
            var all := InsertCalls(t, singles, multis, now);
            var f := FoundPass(t, outcome, ids, first, now, raises);
            f.calls == UpToFirst(all, raises) &&
            (f.ok <==> NoneStop(all, raises)) &&
            (f.ok ==> f.used == |outcome.singles| + |outcome.multis|)
  {
    var singles := SingleRecords(t.id, outcome.singles, ids, first, now);
    var multis := MultiRecords(t.id, outcome.multis, ids, first + |outcome.singles|, now);
    assert FoundPass(t, outcome, ids, first, now, raises) ==
           Pass(Writes(t, singles, multis, now, raises).0,
                if singles != [] && raises(InsertItems(singles)) then |outcome.singles|
                else |outcome.singles| + |outcome.multis|,
                Writes(t, singles, multis, now, raises).1);
    WritesStop(t, singles, multis, now, raises);
  }

  /** The topic loop over `ts`, drawing ids from `first` on: topics that are
      not due are skipped, and the first topic that raises ends the loop. */
  function TopicsPass(ts: seq<Topic>, now: int, itemsOf: ItemsOf, search: Searcher, ids: nat -> string, first: nat, raises: Raises)
    : Pass
    decreases |ts|
  {
    if ts == [] then Pass([], 0, true)
    else if !DueTopic(ts[0], now) then TopicsPass(ts[1..], now, itemsOf, search, ids, first, raises)
    else
      var p := TopicPass(ts[0], now, itemsOf, search, ids, first, raises);
      if !p.ok then p
      else
        var q := TopicsPass(ts[1..], now, itemsOf, search, ids, first + p.used, raises);
        Pass(p.calls + q.calls, p.used + q.used, q.ok)
  }

  /** The topic loop from index `i` on: topic `i`, then the rest. */
  lemma TopicsPassFrom(ts: seq<Topic>, i: nat, now: int, itemsOf: ItemsOf, search: Searcher, ids: nat -> string,
                       first: nat, raises: Raises)
    requires i < |ts|
    ensures var p := TopicPass(ts[i], now, itemsOf, search, ids, first, raises);
            TopicsPass(ts[i..], now, itemsOf, search, ids, first, raises) ==
            if !DueTopic(ts[i], now) then TopicsPass(ts[i + 1..], now, itemsOf, search, ids, first, raises)
            else if !p.ok then p
            else
              var q := TopicsPass(ts[i + 1..], now, itemsOf, search, ids, first + p.used, raises);
              Pass(p.calls + q.calls, p.used + q.used, q.ok)
  {
    assert ts[i..][0] == ts[i] && ts[i..][1..] == ts[i + 1..];
  }

  /** The topic loop when its first topic is due: that topic's pass, then,
      if it went on, the loop over the rest. */
  lemma TopicsPassDueHead(ts: seq<Topic>, now: int, itemsOf: ItemsOf, search: Searcher, ids: nat -> string,
                          first: nat, raises: Raises)
    requires ts != [] && DueTopic(ts[0], now)
    ensures var h := TopicPass(ts[0], now, itemsOf, search, ids, first, raises);
            var q := TopicsPass(ts[1..], now, itemsOf, search, ids, first + h.used, raises);
            TopicsPass(ts, now, itemsOf, search, ids, first, raises) ==
            if h.ok then Pass(h.calls + q.calls, h.used + q.used, q.ok) else h
  {
  }

  /** The calls `made` and the ids `used` so far, followed by what is left
      (`rest`), give the whole pass. */
  predicate Accounts(whole: Pass, made: seq<Call>, used: nat, rest: Pass)
  {
    whole == Pass(made + rest.calls, used + rest.used, rest.ok)
  }

  lemma AccountsStep(whole: Pass, made: seq<Call>, used: nat, rest: Pass, added: seq<Call>, used2: nat, rest2: Pass)
    requires used <= used2
    requires Accounts(whole, made, used, rest)
    requires rest == Pass(added + rest2.calls, used2 - used + rest2.used, rest2.ok)
    ensures Accounts(whole, made + added, used2, rest2)
  {
    Common.AppendAssoc(made, added, rest2.calls);
  }

  lemma AccountsFail(whole: Pass, made: seq<Call>, used: nat, rest: Pass, added: seq<Call>, used2: nat)
    requires used <= used2
    requires Accounts(whole, made, used, rest)
    requires rest == Pass(added, used2 - used, false)
    ensures whole == Pass(made + added, used2, false)
  {
  }

  /** A topic's pass goes on exactly when its items were read, its search
      completed and none of its writes raised. It starts by reading the
      items; a pass that goes on searched with the known urls and ends by
      storing the new extraction time; one that read and searched but did
      not go on ends at its raising write. */
  lemma TopicPassShape(t: Topic, now: int, itemsOf: ItemsOf, search: Searcher, ids: nat -> string, first: nat, raises: Raises)
    ensures var p := TopicPass(t, now, itemsOf, search, ids, first, raises);
            (p.ok <==> !ReadFails(t, now, itemsOf, search) && NoneStop(p.calls, raises)) &&
            |p.calls| >= 1 && p.calls[0] == GetItems(t.id, t.user) &&
            (itemsOf(t.id, t.user).None? ==> p.calls == [GetItems(t.id, t.user)]) &&
            (p.ok ==> |p.calls| >= 3 && p.calls[1] == Search(t.id, LastExtractionOf(t, now), TopicKnown(t, itemsOf)) &&
                      p.calls[|p.calls| - 1] == UpdateTopic(t.id, now)) &&
            (!p.ok && !ReadFails(t, now, itemsOf, search) ==> raises(p.calls[|p.calls| - 1]))
  {
    var p := TopicPass(t, now, itemsOf, search, ids, first, raises);
    var stops := raises;
    if itemsOf(t.id, t.user).Some? {
      var head := [GetItems(t.id, t.user), Search(t.id, LastExtractionOf(t, now), TopicKnown(t, itemsOf))];
      assert NoneStop(head, stops);
      if !TopicSearch(t, now, itemsOf, search).SearchRaised? {
        var f := FoundPass(t, TopicSearch(t, now, itemsOf, search), ids, first, now, raises);
        FoundPassShape(t, TopicSearch(t, now, itemsOf, search), ids, first, now, raises);
        assert p.calls == head + f.calls;
        NoneStopAppend(head, f.calls, stops);
      }
    }
  }

  /** Every call of a topic's pass is about the topic. */
  lemma TopicPassCalls(t: Topic, now: int, itemsOf: ItemsOf, search: Searcher, ids: nat -> string, first: nat, raises: Raises)
    ensures forall c :: c in TopicPass(t, now, itemsOf, search, ids, first, raises).calls ==> CallOfTopic(c, t, now)
  {
    if itemsOf(t.id, t.user).Some? && !TopicSearch(t, now, itemsOf, search).SearchRaised? {
      var p := TopicPass(t, now, itemsOf, search, ids, first, raises);
      var f := FoundPass(t, TopicSearch(t, now, itemsOf, search), ids, first, now, raises);
      FoundPassShape(t, TopicSearch(t, now, itemsOf, search), ids, first, now, raises);
      assert p.calls == [GetItems(t.id, t.user), Search(t.id, LastExtractionOf(t, now), TopicKnown(t, itemsOf))] + f.calls;
    }
  }

  /** After a successful search every call is about the topic; the pass
      goes on exactly when no write raised, and then its last call stores
      the new extraction time, otherwise its last call is the raising
      write. */
  lemma FoundPassShape(t: Topic, outcome: SearchOutcome, ids: nat -> string, first: nat, now: int, raises: Raises)
    requires outcome.Found?
    ensures var f := FoundPass(t, outcome, ids, first, now, raises);
            |f.calls| >= 1 && (forall c :: c in f.calls ==> CallOfTopic(c, t, now)) &&
            (f.ok <==> NoneStop(f.calls, raises)) &&
            (f.ok ==> f.calls[|f.calls| - 1] == UpdateTopic(t.id, now)) &&
            (!f.ok ==> raises(f.calls[|f.calls| - 1]))
  {
    var singles := SingleRecords(t.id, outcome.singles, ids, first, now);
    var multis := MultiRecords(t.id, outcome.multis, ids, first + |outcome.singles|, now);
    var all := InsertCalls(t, singles, multis, now);
    var f := FoundPass(t, outcome, ids, first, now, raises);
    FoundPassStops(t, outcome, ids, first, now, raises);
    SingleRecordsFresh(t.id, outcome.singles, ids, first, now);
    MultiRecordsFresh(t.id, outcome.multis, ids, first + |outcome.singles|, now);
    InsertCallsOfTopic(t, singles, multis, now);
    InsertCallsShape(t, singles, multis, now);
    assert f.calls == all[..|f.calls|];
    assert forall c :: c in f.calls ==> c in all;
    if f.ok {
      assert f.calls == all;
    }
  }

  /** Call `c` was made for a due topic of `ts`. */
  predicate ForDueTopic(c: Call, ts: seq<Topic>, now: int)
  {
    exists t :: t in ts && DueTopic(t, now) && CallOfTopic(c, t, now)
  }

  /** A call made for a due topic of the tail of `ts` is one for a due
      topic of `ts`. */
  lemma ForDueTopicTail(cs: seq<Call>, ts: seq<Topic>, now: int)
    requires ts != [] && forall c :: c in cs ==> ForDueTopic(c, ts[1..], now)
    ensures forall c :: c in cs ==> ForDueTopic(c, ts, now)
  {
    forall c | c in cs
      ensures ForDueTopic(c, ts, now)
    {
      var t :| t in ts[1..] && DueTopic(t, now) && CallOfTopic(c, t, now);
      assert t in ts;
    }
  }

  /** Every call of the topic loop was made for a due topic of the list. */
  lemma {:induction false} TopicsPassCallsAreDue(ts: seq<Topic>, now: int, itemsOf: ItemsOf, search: Searcher,
                                                 ids: nat -> string, first: nat, raises: Raises)
    ensures forall c :: c in TopicsPass(ts, now, itemsOf, search, ids, first, raises).calls ==> ForDueTopic(c, ts, now)
    decreases |ts|, 1
  {
    if ts != [] {
      if !DueTopic(ts[0], now) {
        TopicsPassCallsAreDue(ts[1..], now, itemsOf, search, ids, first, raises);
        ForDueTopicTail(TopicsPass(ts, now, itemsOf, search, ids, first, raises).calls, ts, now);
      } else {
        DueHeadCallsAreDue(ts, now, itemsOf, search, ids, first, raises);
      }
    }
  }

  /** The calls of the topic loop whose first topic is due. */
  lemma {:induction false} DueHeadCallsAreDue(ts: seq<Topic>, now: int, itemsOf: ItemsOf, search: Searcher,
                                              ids: nat -> string, first: nat, raises: Raises)
    requires ts != [] && DueTopic(ts[0], now)
    ensures forall c :: c in TopicsPass(ts, now, itemsOf, search, ids, first, raises).calls ==> ForDueTopic(c, ts, now)
    decreases |ts|, 0
  {
    var p := TopicsPass(ts, now, itemsOf, search, ids, first, raises);
    var h := TopicPass(ts[0], now, itemsOf, search, ids, first, raises);
    var q := TopicsPass(ts[1..], now, itemsOf, search, ids, first + h.used, raises);
    TopicsPassDueHead(ts, now, itemsOf, search, ids, first, raises);
    TopicPassCalls(ts[0], now, itemsOf, search, ids, first, raises);
    ForDueHead(h.calls, ts, now);
    TopicsPassCallsAreDue(ts[1..], now, itemsOf, search, ids, first + h.used, raises);
    ForDueTopicTail(q.calls, ts, now);
    ForDueAppend(h.calls, q.calls, ts, now);
  }

  /** Calls made for the first topic of `ts`, when it is due, are made for a
      due topic of `ts`. */
  lemma ForDueHead(cs: seq<Call>, ts: seq<Topic>, now: int)
    requires ts != [] && DueTopic(ts[0], now) && forall c :: c in cs ==> CallOfTopic(c, ts[0], now)
    ensures forall c :: c in cs ==> ForDueTopic(c, ts, now)
  {
    assert ts[0] in ts;
  }

  /** Calls made for due topics of `ts`, one run after another. */
  lemma ForDueAppend(cs: seq<Call>, ds: seq<Call>, ts: seq<Topic>, now: int)
    requires forall c :: c in cs ==> ForDueTopic(c, ts, now)
    requires forall c :: c in ds ==> ForDueTopic(c, ts, now)
    ensures forall c :: c in cs + ds ==> ForDueTopic(c, ts, now)
  {
  }

  /** The topic loop completes exactly when every due topic of the list had
      its items read and its search completed, and none of the writes it
      made raised. */
  lemma TopicsPassOk(ts: seq<Topic>, now: int, itemsOf: ItemsOf, search: Searcher,
                     ids: nat -> string, first: nat, raises: Raises)
    ensures var p := TopicsPass(ts, now, itemsOf, search, ids, first, raises);
            p.ok <==>
            (forall t :: t in ts && DueTopic(t, now) ==> !ReadFails(t, now, itemsOf, search)) &&
            NoneStop(p.calls, raises)
  {
    TopicsPassGoesOn(ts, now, itemsOf, search, ids, first, raises);
    AllReadEach(ts, now, itemsOf, search);
  }

  /** Every due topic of `ts` had its items read and its search completed. */
  predicate AllRead(ts: seq<Topic>, now: int, itemsOf: ItemsOf, search: Searcher)
    decreases |ts|
  {
    ts == [] || ((DueTopic(ts[0], now) ==> !ReadFails(ts[0], now, itemsOf, search)) && AllRead(ts[1..], now, itemsOf, search))
  }

  /** `AllRead` holds exactly when each due topic of `ts` was read. */
  lemma {:induction false} AllReadEach(ts: seq<Topic>, now: int, itemsOf: ItemsOf, search: Searcher)
    ensures AllRead(ts, now, itemsOf, search) <==> forall t :: t in ts && DueTopic(t, now) ==> !ReadFails(t, now, itemsOf, search)
    decreases |ts|
  {
    if ts != [] {
      assert forall t :: t in ts <==> t == ts[0] || t in ts[1..];
      AllReadEach(ts[1..], now, itemsOf, search);
    }
  }

  /** The topic loop completes exactly when every due topic was read and
      none of its writes raised; proved topic by topic. */
  lemma {:induction false} TopicsPassGoesOn(ts: seq<Topic>, now: int, itemsOf: ItemsOf, search: Searcher,
                                            ids: nat -> string, first: nat, raises: Raises)
    ensures var p := TopicsPass(ts, now, itemsOf, search, ids, first, raises);
            p.ok <==> AllRead(ts, now, itemsOf, search) && NoneStop(p.calls, raises)
    decreases |ts|
  {
    if ts != [] {
      if DueTopic(ts[0], now) {
        var h := TopicPass(ts[0], now, itemsOf, search, ids, first, raises);
        TopicPassShape(ts[0], now, itemsOf, search, ids, first, raises);
        var q := TopicsPass(ts[1..], now, itemsOf, search, ids, first + h.used, raises);
        TopicsPassGoesOn(ts[1..], now, itemsOf, search, ids, first + h.used, raises);
        JoinOk(h, q, !ReadFails(ts[0], now, itemsOf, search), AllRead(ts[1..], now, itemsOf, search), raises);
      } else {
        TopicsPassGoesOn(ts[1..], now, itemsOf, search, ids, first, raises);
      }
    }
  }

  /** Joining a pass that goes on exactly when `read` holds and none of its
      calls raises with the rest, which goes on exactly when `rest` holds
      and none of its calls raises: the whole goes on exactly when both
      hold and none of its calls raises. */
  lemma JoinOk(h: Pass, q: Pass, read: bool, rest: bool, raises: Raises)
    requires h.ok <==> read && NoneStop(h.calls, raises)
    requires q.ok <==> rest && NoneStop(q.calls, raises)
    ensures var p := if !h.ok then h else Pass(h.calls + q.calls, h.used + q.used, q.ok);
            p.ok <==> read && rest && NoneStop(p.calls, raises)
  {
    if h.ok {
      NoneStopAppend(h.calls, q.calls, raises);
    }
  }

  /** When the topic loop completes, every due topic had its items read and
      its extraction time stored. */
  lemma {:induction false} TopicsPassStampsDue(ts: seq<Topic>, now: int, itemsOf: ItemsOf, search: Searcher,
                                               ids: nat -> string, first: nat, raises: Raises)
    ensures var p := TopicsPass(ts, now, itemsOf, search, ids, first, raises);
            p.ok ==> forall t :: t in ts && DueTopic(t, now) ==>
                       GetItems(t.id, t.user) in p.calls && UpdateTopic(t.id, now) in p.calls
    decreases |ts|
  {
    var p := TopicsPass(ts, now, itemsOf, search, ids, first, raises);
    if ts != [] && p.ok {
      assert forall t :: t in ts <==> t == ts[0] || t in ts[1..];
      if DueTopic(ts[0], now) {
        var h := TopicPass(ts[0], now, itemsOf, search, ids, first, raises);
        TopicPassShape(ts[0], now, itemsOf, search, ids, first, raises);
        TopicsPassStampsDue(ts[1..], now, itemsOf, search, ids, first + h.used, raises);
        var q := TopicsPass(ts[1..], now, itemsOf, search, ids, first + h.used, raises);
        assert p.calls == h.calls + q.calls;
        assert p.calls[0] == GetItems(ts[0].id, ts[0].user);
        assert p.calls[|h.calls| - 1] == UpdateTopic(ts[0].id, now);
        assert forall c :: c in q.calls ==> c in p.calls;
      } else {
        TopicsPassStampsDue(ts[1..], now, itemsOf, search, ids, first, raises);
      }
    }
  }

  /** The extraction service between rounds. */
  class Service {
    /** The successive results of `uuid.uuid4()`. */
    const ids: nat -> string
    /** How many ids were drawn so far. */
    var issued: nat
    var lastTimeRun: int
    var changedLocal: int
    var calls: seq<Call>

    constructor(ids: nat -> string)
      ensures this.ids == ids && issued == 0 && lastTimeRun == 0 && changedLocal == 0 && calls == []
    {
      this.ids := ids;
      issued := 0;
      lastTimeRun := 0;
      changedLocal := 0;
      calls := [];
    }
    /** The records of the single results, drawing one id per record. */
    method BuildSingles(topicId: string, results: seq<SingleResult>, now: int) returns (records: seq<SingleRecord>)
      modifies this`issued
      ensures records == SingleRecords(topicId, results, ids, old(issued), now)
      ensures issued == old(issued) + |results|
    {
      records := [];
      for k := 0 to |results|
        invariant issued == old(issued) + k
        invariant records == SingleRecords(topicId, results[..k], ids, old(issued), now)
      {
        assert results[..k + 1][..k] == results[..k];
        var id := ids(issued);
        issued := issued + 1;
        records := records + [SingleRecordOf(topicId, results[k], id, now)];
      }
      assert results[..|results|] == results;
    }

    /** The records of the multi results, drawing one id per record. */
    method BuildMultis(topicId: string, results: seq<MultiResult>, now: int) returns (records: seq<MultiRecord>)
      modifies this`issued
      ensures records == MultiRecords(topicId, results, ids, old(issued), now)
      ensures issued == old(issued) + |results|
    {
      records := [];
      for k := 0 to |results|
        invariant issued == old(issued) + k
        invariant records == MultiRecords(topicId, results[..k], ids, old(issued), now)
      {
        assert results[..k + 1][..k] == results[..k];
        var id := ids(issued);
        issued := issued + 1;
        records := records + [MultiRecordOf(topicId, results[k], id, now)];
      }
      assert results[..|results|] == results;
    }

    /** The body of the topic loop for a due topic; `ok` is false when it
        raised, which ends the round. */
    method ProcessTopic(t: Topic, now: int, itemsOf: ItemsOf, search: Searcher, raises: Raises)
      returns (ok: bool, ghost added: seq<Call>)
      requires DueTopic(t, now)
      modifies this`issued, this`calls
      ensures calls == old(calls) + added && old(issued) <= issued
      ensures Pass(added, issued - old(issued), ok) == TopicPass(t, now, itemsOf, search, ids, old(issued), raises)
    {
      var sources := itemsOf(t.id, t.user);
      if sources.None? {
        calls := calls + [GetItems(t.id, t.user)];
        return false, [GetItems(t.id, t.user)];
      }
      var known := KnownUrls(sources.value);
      var last := LastExtractionOf(t, now);
      var head := [GetItems(t.id, t.user), Search(t.id, last, known)];
      calls := calls + head;
      var outcome := search(t, last, known);
      if outcome.SearchRaised? {
        return false, head;
      }
      ghost var start := issued;
      ghost var inserts;
      ok, inserts := InsertOutcome(t, outcome, now, raises);
      added := head + inserts;
      Common.AppendAssoc(old(calls), head, inserts);
      TopicPassFound(t, now, itemsOf, search, ids, start, raises, Pass(inserts, issued - start, ok));
    }

    /** The writes after a successful search, drawing one id per record;
        `ok` is false when a write raised, which ends the round. */
    method InsertOutcome(t: Topic, outcome: SearchOutcome, now: int, raises: Raises)
      returns (ok: bool, ghost added: seq<Call>)
      requires outcome.Found?
      modifies this`issued, this`calls
      ensures calls == old(calls) + added && old(issued) <= issued
      ensures Pass(added, issued - old(issued), ok) == FoundPass(t, outcome, ids, old(issued), now, raises)
    {
      ghost var start := issued;
      var singles := BuildSingles(t.id, outcome.singles, now);
      var writes: seq<Call>;
      if singles != [] && raises(InsertItems(singles)) {
        writes, ok := [InsertItems(singles)], false;
      } else {
        var spoken := if singles == [] then [] else [InsertItems(singles)] + SpeechCalls(singles);
        var multis := BuildMultis(t.id, outcome.multis, now);
        if multis != [] && raises(InsertMultiItems(multis)) {
          writes, ok := spoken + [InsertMultiItems(multis)], false;
        } else {
          var inserted := if multis == [] then [] else [InsertMultiItems(multis)];
          writes, ok := spoken + inserted + [UpdateTopic(t.id, now)], !raises(UpdateTopic(t.id, now));
        }
      }
      calls := calls + writes;
      added := writes;
      assert (writes, ok) == Writes(t, singles, MultiRecords(t.id, outcome.multis, ids, start + |outcome.singles|, now), now, raises);
    }

    /** The topic loop of a round; `ok` is false when a topic raised, which
        ends the loop. */
    method RunTopics(ts: seq<Topic>, now: int, itemsOf: ItemsOf, search: Searcher, raises: Raises)
      returns (ok: bool, ghost made: seq<Call>)
      modifies this`issued, this`calls
      ensures calls == old(calls) + made && old(issued) <= issued
      ensures Pass(made, issued - old(issued), ok) == TopicsPass(ts, now, itemsOf, search, ids, old(issued), raises)
    {
      made := [];
      ghost var whole := TopicsPass(ts, now, itemsOf, search, ids, issued, raises);
      ghost var rest := whole;
      assert ts[0..] == ts;
      for i := 0 to |ts|
        invariant calls == old(calls) + made && old(issued) <= issued
        invariant rest == TopicsPass(ts[i..], now, itemsOf, search, ids, issued, raises)
        invariant Accounts(whole, made, issued - old(issued), rest)
      {
        var topicOk, added, after := VisitTopic(ts, i, now, itemsOf, search, raises, old(issued), whole, made, rest);
        Common.AppendAssoc(old(calls), made, added);
        made := made + added;
        if !topicOk {
          return false, made;
        }
        rest := after;
      }
      assert ts[|ts|..] == [];
      ok := true;
    }

    /** Topic `i` of the loop: processed when it is due, skipped otherwise.
        Before it, the calls `made` and the ids drawn since `start` followed
        by the loop over the topics from `i` on (`rest`) give the `whole`
        loop; after it, the same holds for the topics after `i` (`after`),
        or the loop ends here when the topic raised. */
    method VisitTopic(ts: seq<Topic>, i: nat, now: int, itemsOf: ItemsOf, search: Searcher, raises: Raises,
                      ghost start: nat, ghost whole: Pass, ghost made: seq<Call>, ghost rest: Pass)
      returns (ok: bool, ghost added: seq<Call>, ghost after: Pass)
      requires i < |ts| && start <= issued
      requires rest == TopicsPass(ts[i..], now, itemsOf, search, ids, issued, raises)
      requires Accounts(whole, made, issued - start, rest)
      modifies this`issued, this`calls
      ensures calls == old(calls) + added && old(issued) <= issued
      ensures ok ==> after == TopicsPass(ts[i + 1..], now, itemsOf, search, ids, issued, raises) &&
                     Accounts(whole, made + added, issued - start, after)
      ensures !ok ==> whole == Pass(made + added, issued - start, false)
    {
      TopicsPassFrom(ts, i, now, itemsOf, search, ids, issued, raises);
      ghost var used := issued - start;
      var topic := ts[i];
      if !Considered(topic) || !Due(topic, now) {
        after := TopicsPass(ts[i + 1..], now, itemsOf, search, ids, issued, raises);
        AccountsStep(whole, made, used, rest, [], used, after);
        return true, [], after;
      }
      ok, added := ProcessTopic(topic, now, itemsOf, search, raises);
      after := TopicsPass(ts[i + 1..], now, itemsOf, search, ids, issued, raises);
      if ok {
        AccountsStep(whole, made, used, rest, added, issued - start, after);
      } else {
        AccountsFail(whole, made, used, rest, added, issued - start);
      }
    }

    /** One pass of the service loop at time `now`; `completed` when every
        due topic was processed and `last_time_run` moved to `now`. */
    method Round(now: int, shared: SharedFile, topics: Option<seq<Topic>>, itemsOf: ItemsOf, search: Searcher,
                 raises: Raises)
      returns (completed: bool, ghost made: seq<Call>)
      modifies this
      ensures changedLocal == Schedule(old(lastTimeRun), old(changedLocal), now, shared).changedLocal
      ensures lastTimeRun == if completed then now else old(lastTimeRun)
      ensures !Schedule(old(lastTimeRun), old(changedLocal), now, shared).run ==> calls == old(calls) && !completed
      ensures Schedule(old(lastTimeRun), old(changedLocal), now, shared).run ==> calls == old(calls) + [GetTopics] + made
      ensures topics.None? ==> !completed && made == []
      ensures topics.Some? && Schedule(old(lastTimeRun), old(changedLocal), now, shared).run ==>
                var p := TopicsPass(topics.value, now, itemsOf, search, ids, old(issued), raises);
                made == p.calls && issued == old(issued) + p.used && completed == p.ok
      ensures completed <==>
                Schedule(old(lastTimeRun), old(changedLocal), now, shared).run && topics.Some? &&
                (forall t :: t in topics.value && DueTopic(t, now) ==> !ReadFails(t, now, itemsOf, search)) &&
                NoneStop(made, raises)
      ensures topics.Some? ==> forall c :: c in made ==> ForDueTopic(c, topics.value, now)
      ensures completed ==> forall t :: t in topics.value && DueTopic(t, now) ==>
                GetItems(t.id, t.user) in made && UpdateTopic(t.id, now) in made
    {
      made := [];
      var trigger := Schedule(lastTimeRun, changedLocal, now, shared);
      changedLocal := trigger.changedLocal;
      completed := false;
      if !trigger.run {
        return;
      }
      calls := calls + [GetTopics];
      if topics.None? {
        return;
      }
      ghost var first := issued;
      completed, made := RunTopics(topics.value, now, itemsOf, search, raises);
      TopicsPassOk(topics.value, now, itemsOf, search, ids, first, raises);
      TopicsPassCallsAreDue(topics.value, now, itemsOf, search, ids, first, raises);
      TopicsPassStampsDue(topics.value, now, itemsOf, search, ids, first, raises);
      if completed {
        lastTimeRun := now;
      }
    }
  }
}
