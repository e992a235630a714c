/** The one-off bookmarks script (temp_bookmarks_extractor.py): collect the
    bookmarks of one folder of the browser's bookmark tree, summarize the
    pages not extracted yet, and insert the summaries in batches of five.

    The bookmark file, the environment, the clock, `uuid4` and the API are
    arguments: the tree under `roots.bookmark_bar.children`, the two base
    urls, one `now`, the id sequence `ids`, and the sources of the user's
    items. The page fetcher and the language model are the oracles of the
    extractor. */
module BookmarksExtractor {
  import opened Common
  import opened Extractor
  import WebExtractor

  const BookmarkFolder := "news_week_12_2"
  const ItemType := "short summary"
  const User := "Snezhana"
  const TopicId := "4729ee87-751f-4e44-8cdd-b9fef4b1330f"
  const ItemName := "short summary"
  const BatchSize := 5
  /** The folder the walk starts in. */
  const RootFolder := "main"

  /** A node of the bookmark tree: a url with its name, a folder (whose
      name may be missing) with its children, or a node of any other type. */
  datatype Node =
    | UrlNode(url: string, name: string)
    | FolderNode(folderName: Option<string>, children: seq<Node>)
    | OtherNode

  datatype Bookmark = Bookmark(url: string, title: string)

  function NodeSize(n: Node): nat
  {
    match n
    case FolderNode(_, children) => 1 + ForestSize(children)
    case _ => 1
  }

  function ForestSize(tree: seq<Node>): nat
  {
    if tree == [] then 0 else NodeSize(tree[0]) + ForestSize(tree[1..])
  }

  /** The children of a folder in the tree are a smaller tree. */
  lemma {:induction false} ChildrenSmaller(tree: seq<Node>, i: nat)
    requires i < |tree| && tree[i].FolderNode?
    ensures ForestSize(tree[i].children) < ForestSize(tree)
    decreases i
  {
    if i > 0 {
      ChildrenSmaller(tree[1..], i - 1);
    }
  }

  /** `extract_bookmarks(tree, target, folder)`: walking the siblings in
      order, a url node is collected when the current folder is `target`; a
      folder node makes its name the current folder, for its own children
      and for every sibling after it; other nodes are skipped. */
  function Walk(tree: seq<Node>, target: string, folder: Option<string>): seq<Bookmark>
    decreases ForestSize(tree)
  {
    if tree == [] then []
    else
      assert ForestSize(tree) == NodeSize(tree[0]) + ForestSize(tree[1..]);
      match tree[0]
      case UrlNode(url, name) =>
        (if folder == Some(target) then [Bookmark(url, name)] else []) + Walk(tree[1..], target, folder)
      case FolderNode(name, children) =>
        Walk(children, target, name) + Walk(tree[1..], target, name)
      case OtherNode => Walk(tree[1..], target, folder)
  }

  /** The current folder after walking the siblings `tree`: the name of the
      last folder among them, or `folder` when there is none. */
  function FolderAfter(tree: seq<Node>, folder: Option<string>): Option<string>
    decreases |tree|
  {
    if tree == [] then folder
    else if tree[|tree| - 1].FolderNode? then tree[|tree| - 1].folderName
    else FolderAfter(tree[..|tree| - 1], folder)
  }

  /** Every url node of the tree, in pre-order. */
  function AllUrls(tree: seq<Node>): seq<Bookmark>
    decreases ForestSize(tree)
  {
    if tree == [] then []
    else
      assert ForestSize(tree) == NodeSize(tree[0]) + ForestSize(tree[1..]);
      match tree[0]
      case UrlNode(url, name) => [Bookmark(url, name)] + AllUrls(tree[1..])
      case FolderNode(_, children) => AllUrls(children) + AllUrls(tree[1..])
      case OtherNode => AllUrls(tree[1..])
  }

  /** The tree has no folder at any depth. */
  predicate Flat(tree: seq<Node>)
  {
    forall i :: 0 <= i < |tree| ==> !tree[i].FolderNode?
  }

  /** The reassigned folder outlives the folder's subtree: the siblings
      after `left` are judged by the last folder name in `left`. */
  lemma {:induction false} WalkSplit(left: seq<Node>, right: seq<Node>, target: string, folder: Option<string>)
    ensures Walk(left + right, target, folder) ==
            Walk(left, target, folder) + Walk(right, target, FolderAfter(left, folder))
    decreases |left|
  {
    if left == [] {
      assert left + right == right;
    } else {
      var n := |left| - 1;
      var init := left[..n];
      assert left == init + [left[n]];
      assert left + right == init + ([left[n]] + right);
      WalkSplit(init, [left[n]] + right, target, folder);
      WalkSplit(init, [left[n]], target, folder);
      var f := FolderAfter(init, folder);
      assert ([left[n]] + right)[1..] == right;
      assert [left[n]][1..] == [];
      match left[n]
      case UrlNode(_, _) =>
      case FolderNode(name, children) =>
      case OtherNode =>
    }
  }

  /** Every collected bookmark is a url node of the tree. */
  lemma {:induction false} WalkCollectsUrls(tree: seq<Node>, target: string, folder: Option<string>)
    ensures forall b :: b in Walk(tree, target, folder) ==> b in AllUrls(tree)
    decreases ForestSize(tree)
  {
    if tree != [] {
      assert ForestSize(tree) == NodeSize(tree[0]) + ForestSize(tree[1..]);
      match tree[0]
      case UrlNode(url, name) =>
        WalkCollectsUrls(tree[1..], target, folder);
      case FolderNode(name, children) =>
        ChildrenSmaller(tree, 0);
        WalkCollectsUrls(children, target, name);
        WalkCollectsUrls(tree[1..], target, name);
      case OtherNode =>
        WalkCollectsUrls(tree[1..], target, folder);
    }
  }

  /** Without folders the folder never changes: the walk collects every url
      node when it starts in `target`, and nothing otherwise. */
  lemma {:induction false} FlatWalk(tree: seq<Node>, target: string, folder: Option<string>)
    requires Flat(tree)
    ensures Walk(tree, target, folder) == if folder == Some(target) then AllUrls(tree) else []
    decreases |tree|
  {
    if tree != [] {
      assert Flat(tree[1..]) by {
        forall i | 0 <= i < |tree[1..]|
          ensures !tree[1..][i].FolderNode?
        {
          assert tree[1..][i] == tree[i + 1];
        }
      }
      assert !tree[0].FolderNode?;
      FlatWalk(tree[1..], target, folder);
    }
  }

  /** The walk as the script runs it, appending to a list and reassigning
      the current folder. */
  method ExtractBookmarks(tree: seq<Node>, target: string, start: Option<string>) returns (bookmarks: seq<Bookmark>)
    ensures bookmarks == Walk(tree, target, start)
    decreases ForestSize(tree)
  {
    bookmarks := [];
    var folder := start;
    for i := 0 to |tree|
      invariant bookmarks + Walk(tree[i..], target, folder) == Walk(tree, target, start)
    {
      assert tree[i..][0] == tree[i] && tree[i..][1..] == tree[i + 1..];
      match tree[i] {
        case UrlNode(url, name) =>
          if folder == Some(target) {
            bookmarks := bookmarks + [Bookmark(url, name)];
          }
        case FolderNode(name, children) =>
          folder := name;
          ChildrenSmaller(tree, i);
          var sub := ExtractBookmarks(children, target, folder);
          bookmarks := bookmarks + sub;
        case OtherNode =>
      }
    }
    assert tree[|tree|..] == [];
  }

  /** `get_brave_bookmarks`: the walk of the bookmark bar from the folder
      "main". */
  method GetBookmarks(bar: seq<Node>, target: string) returns (bookmarks: seq<Bookmark>)
    ensures bookmarks == Walk(bar, target, Some(RootFolder))
  {
    bookmarks := ExtractBookmarks(bar, target, Some(RootFolder));
  }

  /** The end of the batch that starts at `i`: `bookmarks[i:i+batch_size]`
      stops at the end of the list. */
  function BatchEnd(bookmarks: seq<Bookmark>, i: nat): nat
  {
    if i + BatchSize < |bookmarks| then i + BatchSize else |bookmarks|
  }

  /** `bookmarks[i:i+batch_size]` for `i` in `range(start, len(bookmarks),
      batch_size)`. */
  function BatchesFrom(bookmarks: seq<Bookmark>, start: nat): seq<seq<Bookmark>>
    decreases |bookmarks| - start
  {
    if start >= |bookmarks| then []
    else [bookmarks[start..BatchEnd(bookmarks, start)]] + BatchesFrom(bookmarks, start + BatchSize)
  }

  /** The batches of the whole list. */
  function Batches(bookmarks: seq<Bookmark>): seq<seq<Bookmark>>
  {
    BatchesFrom(bookmarks, 0)
  }

  function Flatten<T>(xss: seq<seq<T>>): seq<T>
  {
    if xss == [] then [] else xss[0] + Flatten(xss[1..])
  }

  /** The batches from `start` on cover each bookmark from there once, in
      order, and each holds one to five bookmarks. */
  lemma {:induction false} BatchesFromCover(bookmarks: seq<Bookmark>, start: nat)
    requires start <= |bookmarks|
    ensures Flatten(BatchesFrom(bookmarks, start)) == bookmarks[start..]
    ensures forall k :: 0 <= k < |BatchesFrom(bookmarks, start)| ==> 0 < |BatchesFrom(bookmarks, start)[k]| <= BatchSize
    decreases |bookmarks| - start
  {
    if start < |bookmarks| {
      var end := BatchEnd(bookmarks, start);
      var bs := BatchesFrom(bookmarks, start);
      var tail := BatchesFrom(bookmarks, start + BatchSize);
      if start + BatchSize < |bookmarks| {
        BatchesFromCover(bookmarks, end);
      } else {
        assert tail == [];
      }
      assert Flatten(tail) == bookmarks[end..];
      assert bs[1..] == tail;
      assert bookmarks[start..] == bookmarks[start..end] + bookmarks[end..];
      forall k | 0 <= k < |bs|
        ensures 0 < |bs[k]| <= BatchSize
      {
        if k > 0 {
          assert bs[k] == tail[k - 1];
        }
      }
    }
  }

  /** The batches cover each bookmark once, in order, and each holds one to
      five bookmarks. */
  lemma BatchesCover(bookmarks: seq<Bookmark>)
    ensures Flatten(Batches(bookmarks)) == bookmarks
    ensures forall k :: 0 <= k < |Batches(bookmarks)| ==> 0 < |Batches(bookmarks)[k]| <= BatchSize
  {
    BatchesFromCover(bookmarks, 0);
  }

  /** The extractor as the batch loop sees it: a url's summary, if any. */
  type Summarizer = string -> Option<string>

  /** `extract_single_item_from_url(url, item_type)` with its answer taken:
      no summary when the page has no text or the model gives none. A missing
      template raises, which the script catches for that bookmark alone, so
      it gives no summary either. */
  function Answer(url: string, fetch: Fetch, llm: Llm): Option<string>
  {
    var r := ExtractSingle(url, ItemType, false, fetch, llm);
    if r.Ok? then r.value.value else None
  }

  /** The summary of a page is the model's answer to the summary prompt on
      the page's text; an empty page has none. */
  lemma AnswerIsSummary(url: string, fetch: Fetch, llm: Llm)
    ensures GetText(url, fetch) == "" ==> Answer(url, fetch, llm).None?
    ensures GetText(url, fetch) != "" && TemplateFor(ItemType).Some? ==>
              Answer(url, fetch, llm) == llm(Summarize(TemplateFor(ItemType).value, Truncated(GetText(url, fetch))))
  {
  }

  function Summarizing(fetch: Fetch, llm: Llm): Summarizer
  {
    url => Answer(url, fetch, llm)
  }

  /** The record inserted for a bookmark's page. */
  function BookmarkRecord(id: string, url: string, title: string, answer: string, now: int): WebExtractor.SingleRecord
  {
    WebExtractor.SingleRecord(id, TopicId, ItemName, url, title, answer, WebExtractor.AudioName(id), [], false, now, now)
  }

  /** A record the script creates: for its topic and item, new, and with a
      source already cut at '?'. */
  predicate Fresh(r: WebExtractor.SingleRecord, now: int)
  {
    r.topicId == TopicId && r.itemName == ItemName && WebExtractor.FreshSingle(r, now) && '?' !in r.source
  }

  /** The records made from a batch and the known urls after it. */
  datatype Scanned = Scanned(records: seq<WebExtractor.SingleRecord>, known: seq<string>)

  /** One turn of the inner loop: a bookmark whose url, cut at '?', is
      known is skipped; otherwise its page is summarized, and a summary
      makes a record (taking the next id) and makes the url known. */
  function Step(s: Scanned, bm: Bookmark, ids: nat -> string, first: nat, now: int, summarize: Summarizer): Scanned
  {
    var url := BeforeFirst(bm.url, '?');
    if url in s.known then s
    else
      match summarize(url)
      case None => s
      case Some(answer) =>
        Scanned(s.records + [BookmarkRecord(ids(first + |s.records|), url, bm.title, answer, now)], s.known + [url])
  }

  /** The inner loop over the first `j` bookmarks of a batch, one `Step`
      per bookmark. */
  function ScanTo(batch: seq<Bookmark>, j: nat, known: seq<string>, ids: nat -> string, first: nat, now: int,
                  summarize: Summarizer): Scanned
    requires j <= |batch|
  {
    if j == 0 then Scanned([], known)
    else Step(ScanTo(batch, j - 1, known, ids, first, now, summarize), batch[j - 1], ids, first, now, summarize)
  }

  /** The inner loop over a whole batch. */
  function Scan(batch: seq<Bookmark>, known: seq<string>, ids: nat -> string, first: nat, now: int,
                summarize: Summarizer): Scanned
  {
    ScanTo(batch, |batch|, known, ids, first, now, summarize)
  }

  function Sources(records: seq<WebExtractor.SingleRecord>): seq<string>
    decreases |records|
  {
    if records == [] then [] else Sources(records[..|records| - 1]) + [records[|records| - 1].source]
  }

  /** `records` take the ids from `first` on, one each and in order. */
  predicate Numbered(records: seq<WebExtractor.SingleRecord>, ids: nat -> string, first: nat)
  {
    forall k {:trigger records[k].id} :: 0 <= k < |records| ==> records[k].id == ids(first + k)
  }

  predicate AllFresh(records: seq<WebExtractor.SingleRecord>, now: int)
  {
    forall k :: 0 <= k < |records| ==> Fresh(records[k], now)
  }

  /** The urls of `src` are distinct and none of them is in `known`. */
  predicate Unrepeated(src: seq<string>, known: seq<string>)
  {
    (forall k :: 0 <= k < |src| ==> src[k] !in known) &&
    forall j, k :: 0 <= j < k < |src| ==> src[j] != src[k]
  }

  lemma {:induction false} SourcesAppend(a: seq<WebExtractor.SingleRecord>, b: seq<WebExtractor.SingleRecord>)
    ensures Sources(a + b) == Sources(a) + Sources(b)
    decreases |b|
  {
    if b != [] {
      var n := |b| - 1;
      assert (a + b)[..|a + b| - 1] == a + b[..n];
      SourcesAppend(a, b[..n]);
    } else {
      assert a + b == a;
    }
  }

  lemma ConcatAssoc<T>(x: seq<T>, y: seq<T>, z: seq<T>)
    ensures (x + y) + z == x + (y + z)
  {
  }

  lemma SourcesSnoc(records: seq<WebExtractor.SingleRecord>, r: WebExtractor.SingleRecord)
    ensures Sources(records + [r]) == Sources(records) + [r.source]
  {
    assert (records + [r])[..|records|] == records;
  }

  lemma NumberedAppend(a: seq<WebExtractor.SingleRecord>, b: seq<WebExtractor.SingleRecord>, ids: nat -> string,
                       first: nat)
    requires Numbered(a, ids, first) && Numbered(b, ids, first + |a|)
    ensures Numbered(a + b, ids, first)
  {
    forall k | |a| <= k < |a + b|
      ensures (a + b)[k].id == ids(first + k)
    {
      assert (a + b)[k] == b[k - |a|];
    }
  }

  lemma AllFreshAppend(a: seq<WebExtractor.SingleRecord>, b: seq<WebExtractor.SingleRecord>, now: int)
    requires AllFresh(a, now) && AllFresh(b, now)
    ensures AllFresh(a + b, now)
  {
    forall k | |a| <= k < |a + b|
      ensures Fresh((a + b)[k], now)
    {
      assert (a + b)[k] == b[k - |a|];
    }
  }

  /** New distinct urls followed by urls new even after them are new and
      distinct together. */
  lemma UnrepeatedAppend(a: seq<string>, b: seq<string>, known: seq<string>)
    requires Unrepeated(a, known) && Unrepeated(b, known + a)
    ensures Unrepeated(a + b, known)
  {
    forall k | |a| <= k < |a + b|
      ensures (a + b)[k] !in known && forall j :: 0 <= j < |a| ==> (a + b)[j] != (a + b)[k]
    {
      assert (a + b)[k] == b[k - |a|];
      forall j | 0 <= j < |a|
        ensures (a + b)[j] != (a + b)[k]
      {
        assert a[j] in known + a;
      }
    }
    forall j, k | |a| <= j < k < |a + b|
      ensures (a + b)[j] != (a + b)[k]
    {
      assert (a + b)[j] == b[j - |a|] && (a + b)[k] == b[k - |a|];
    }
  }

  /** A step either keeps the scan as it is or adds the record of a url
      that was not known and has a summary, and makes that url known. */
  lemma StepCases(s: Scanned, bm: Bookmark, ids: nat -> string, first: nat, now: int, summarize: Summarizer)
    returns (url: string, r: WebExtractor.SingleRecord)
    ensures var t := Step(s, bm, ids, first, now, summarize);
            t == s || (url !in s.known && t == Scanned(s.records + [r], s.known + [url]))
    ensures url == BeforeFirst(bm.url, '?') && r.source == url && r.id == ids(first + |s.records|) && Fresh(r, now)
  {
    url := BeforeFirst(bm.url, '?');
    var answer := if summarize(url).Some? then summarize(url).value else "";
    r := BookmarkRecord(ids(first + |s.records|), url, bm.title, answer, now);
  }

  /** A step adds at most one record, and it takes the next id. */
  lemma StepIds(s: Scanned, bm: Bookmark, ids: nat -> string, first: nat, now: int, summarize: Summarizer)
    requires Numbered(s.records, ids, first)
    ensures var t := Step(s, bm, ids, first, now, summarize);
            Numbered(t.records, ids, first) && |t.records| <= |s.records| + 1
  {
    var url, r := StepCases(s, bm, ids, first, now, summarize);
    NumberedAppend(s.records, [r], ids, first);
  }

  /** The urls a step makes known are the sources of the records it adds. */
  lemma StepKnown(s: Scanned, bm: Bookmark, known: seq<string>, ids: nat -> string, first: nat, now: int,
                  summarize: Summarizer)
    requires s.known == known + Sources(s.records)
    ensures var t := Step(s, bm, ids, first, now, summarize);
            t.known == known + Sources(t.records)
  {
    var url, r := StepCases(s, bm, ids, first, now, summarize);
    SourcesSnoc(s.records, r);
  }

  /** A step adds only fresh records. */
  lemma StepFresh(s: Scanned, bm: Bookmark, ids: nat -> string, first: nat, now: int, summarize: Summarizer)
    requires AllFresh(s.records, now)
    ensures AllFresh(Step(s, bm, ids, first, now, summarize).records, now)
  {
    var url, r := StepCases(s, bm, ids, first, now, summarize);
    AllFreshAppend(s.records, [r], now);
  }

  /** A step adds a record only for a url not yet known. */
  lemma StepNoRepeat(s: Scanned, bm: Bookmark, known: seq<string>, ids: nat -> string, first: nat, now: int,
                     summarize: Summarizer)
    requires s.known == known + Sources(s.records)
    requires Unrepeated(Sources(s.records), known)
    ensures Unrepeated(Sources(Step(s, bm, ids, first, now, summarize).records), known)
  {
    var url, r := StepCases(s, bm, ids, first, now, summarize);
    if Step(s, bm, ids, first, now, summarize) != s {
      SourcesSnoc(s.records, r);
      UnrepeatedAppend(Sources(s.records), [url], known);
    }
  }

  /** The k-th record of a scan takes the k-th id. */
  lemma {:induction false} ScanIds(batch: seq<Bookmark>, j: nat, known: seq<string>, ids: nat -> string, first: nat,
                                   now: int, summarize: Summarizer)
    requires j <= |batch|
    ensures var s := ScanTo(batch, j, known, ids, first, now, summarize);
            Numbered(s.records, ids, first) && |s.records| <= j
  {
    if j > 0 {
      ScanIds(batch, j - 1, known, ids, first, now, summarize);
      StepIds(ScanTo(batch, j - 1, known, ids, first, now, summarize), batch[j - 1], ids, first, now, summarize);
    }
  }

  /** The urls a scan makes known are exactly the sources of its records,
      in order. */
  lemma {:induction false} ScanKnown(batch: seq<Bookmark>, j: nat, known: seq<string>, ids: nat -> string, first: nat,
                                     now: int, summarize: Summarizer)
    requires j <= |batch|
    ensures var s := ScanTo(batch, j, known, ids, first, now, summarize);
            s.known == known + Sources(s.records)
  {
    if j > 0 {
      ScanKnown(batch, j - 1, known, ids, first, now, summarize);
      StepKnown(ScanTo(batch, j - 1, known, ids, first, now, summarize), batch[j - 1], known, ids, first, now, summarize);
    } else {
      assert known + [] == known;
    }
  }

  /** Every record the scan makes is new, for the script's topic and item,
      and its source has no query. */
  lemma {:induction false} ScanFresh(batch: seq<Bookmark>, j: nat, known: seq<string>, ids: nat -> string, first: nat,
                                     now: int, summarize: Summarizer)
    requires j <= |batch|
    ensures AllFresh(ScanTo(batch, j, known, ids, first, now, summarize).records, now)
  {
    if j > 0 {
      ScanFresh(batch, j - 1, known, ids, first, now, summarize);
      StepFresh(ScanTo(batch, j - 1, known, ids, first, now, summarize), batch[j - 1], ids, first, now, summarize);
    }
  }

  /** No url is extracted twice: the sources of the scan's records are
      distinct and none was known before. */
  lemma {:induction false} ScanNoRepeat(batch: seq<Bookmark>, j: nat, known: seq<string>, ids: nat -> string, first: nat,
                                        now: int, summarize: Summarizer)
    requires j <= |batch|
    ensures Unrepeated(Sources(ScanTo(batch, j, known, ids, first, now, summarize).records), known)
  {
    if j > 0 {
      ScanNoRepeat(batch, j - 1, known, ids, first, now, summarize);
      ScanKnown(batch, j - 1, known, ids, first, now, summarize);
      StepNoRepeat(ScanTo(batch, j - 1, known, ids, first, now, summarize), batch[j - 1], known, ids, first, now, summarize);
    }
  }

  /** What the batch loop posted, the known urls and the ids drawn. */
  datatype Posting = Posting(posts: seq<seq<WebExtractor.SingleRecord>>, known: seq<string>, used: nat)

  /** A run whose first batch made `records` and whose other batches made
      `rest`: the records are posted unless there are none. */
  function WithBatch(records: seq<WebExtractor.SingleRecord>, rest: Posting): Posting
  {
    Posting((if records == [] then [] else [records]) + rest.posts, rest.known, |records| + rest.used)
  }

  /** The batch loop from the batch at `start` on: each batch of
      `BatchesFrom(bookmarks, start)` is scanned with the urls known so far,
      and its records are posted when there are any. */
  function PostFrom(bookmarks: seq<Bookmark>, start: nat, known: seq<string>, ids: nat -> string, first: nat, now: int,
                    summarize: Summarizer): Posting
    decreases |bookmarks| - start
  {
    if start >= |bookmarks| then Posting([], known, 0)
    else
      var s := Scan(bookmarks[start..BatchEnd(bookmarks, start)], known, ids, first, now, summarize);
      WithBatch(s.records, PostFrom(bookmarks, start + BatchSize, s.known, ids, first + |s.records|, now, summarize))
  }

  /** The run from `start` after a scan of the batch there that made
      `records` and `known'`. */
  lemma PostFromStep(bookmarks: seq<Bookmark>, start: nat, known: seq<string>, ids: nat -> string, first: nat, now: int,
                     summarize: Summarizer, records: seq<WebExtractor.SingleRecord>, known': seq<string>, used: nat)
    requires start < |bookmarks|
    requires Scanned(records, known') == Scan(bookmarks[start..BatchEnd(bookmarks, start)], known, ids, first, now, summarize)
    requires used == first + |records|
    ensures PostFrom(bookmarks, start, known, ids, first, now, summarize) ==
            WithBatch(records, PostFrom(bookmarks, start + BatchSize, known', ids, used, now, summarize))
  {
    var s := Scan(bookmarks[start..BatchEnd(bookmarks, start)], known, ids, first, now, summarize);
    assert s.records == records && s.known == known';
  }

  /** The run from `start` is the batch there, whose records take the ids
      in order, make their urls known, are fresh and are new, followed by
      the run from the next batch. */
  lemma PostFromSplit(bookmarks: seq<Bookmark>, start: nat, known: seq<string>, ids: nat -> string, first: nat,
                      now: int, summarize: Summarizer)
    returns (s: Scanned, next: Posting)
    requires start < |bookmarks|
    ensures PostFrom(bookmarks, start, known, ids, first, now, summarize) == WithBatch(s.records, next)
    ensures next == PostFrom(bookmarks, start + BatchSize, s.known, ids, first + |s.records|, now, summarize)
    ensures Numbered(s.records, ids, first) && s.known == known + Sources(s.records)
    ensures AllFresh(s.records, now) && Unrepeated(Sources(s.records), known)
  {
    var batch := bookmarks[start..BatchEnd(bookmarks, start)];
    s := Scan(batch, known, ids, first, now, summarize);
    ScanIds(batch, |batch|, known, ids, first, now, summarize);
    ScanKnown(batch, |batch|, known, ids, first, now, summarize);
    ScanFresh(batch, |batch|, known, ids, first, now, summarize);
    ScanNoRepeat(batch, |batch|, known, ids, first, now, summarize);
    next := PostFrom(bookmarks, start + BatchSize, s.known, ids, first + |s.records|, now, summarize);
    PostFromStep(bookmarks, start, known, ids, first, now, summarize, s.records, s.known, first + |s.records|);
  }

  /** The records of a run are those of its first batch followed by those
      of the other batches. */
  lemma WithBatchFlatten(records: seq<WebExtractor.SingleRecord>, next: Posting)
    ensures Flatten(WithBatch(records, next).posts) == records + Flatten(next.posts)
  {
    var p := WithBatch(records, next);
    if records != [] {
      assert p.posts == [records] + next.posts;
      assert p.posts[0] == records && p.posts[1..] == next.posts;
    } else {
      assert p.posts == next.posts;
      assert records + Flatten(next.posts) == Flatten(next.posts);
    }
  }

  /** Every post of a run is non-empty. */
  lemma {:induction false} PostsNonEmpty(bookmarks: seq<Bookmark>, start: nat, known: seq<string>, ids: nat -> string,
                                        first: nat, now: int, summarize: Summarizer, p: Posting)
    requires p == PostFrom(bookmarks, start, known, ids, first, now, summarize)
    ensures forall k :: 0 <= k < |p.posts| ==> p.posts[k] != []
    decreases |bookmarks| - start
  {
    if start < |bookmarks| {
      var s, next := PostFromSplit(bookmarks, start, known, ids, first, now, summarize);
      PostsNonEmpty(bookmarks, start + BatchSize, s.known, ids, first + |s.records|, now, summarize, next);
      NonEmptyPosting(p, s.records, next);
    }
  }

  lemma NonEmptyPosting(p: Posting, records: seq<WebExtractor.SingleRecord>, next: Posting)
    requires p == WithBatch(records, next)
    requires forall k :: 0 <= k < |next.posts| ==> next.posts[k] != []
    ensures forall k :: 0 <= k < |p.posts| ==> p.posts[k] != []
  {
    var d := if records == [] then 0 else 1;
    forall k | d <= k < |p.posts|
      ensures p.posts[k] != []
    {
      assert p.posts[k] == next.posts[k - d];
    }
  }

  /** The posted records take the ids in order, one per record, and the
      count of ids the run draws is the count of records. */
  lemma {:induction false} PostedIds(bookmarks: seq<Bookmark>, start: nat, known: seq<string>, ids: nat -> string,
                                    first: nat, now: int, summarize: Summarizer, p: Posting)
    requires p == PostFrom(bookmarks, start, known, ids, first, now, summarize)
    ensures Numbered(Flatten(p.posts), ids, first) && |Flatten(p.posts)| == p.used
    decreases |bookmarks| - start
  {
    if start < |bookmarks| {
      var s, next := PostFromSplit(bookmarks, start, known, ids, first, now, summarize);
      PostedIds(bookmarks, start + BatchSize, s.known, ids, first + |s.records|, now, summarize, next);
      NumberedPosting(p, s.records, next, ids, first);
    }
  }

  lemma NumberedPosting(p: Posting, records: seq<WebExtractor.SingleRecord>, next: Posting, ids: nat -> string,
                        first: nat)
    requires p == WithBatch(records, next)
    requires Numbered(records, ids, first)
    requires Numbered(Flatten(next.posts), ids, first + |records|) && |Flatten(next.posts)| == next.used
    ensures Numbered(Flatten(p.posts), ids, first) && |Flatten(p.posts)| == p.used
  {
    WithBatchFlatten(records, next);
    NumberedAppend(records, Flatten(next.posts), ids, first);
  }

  /** The urls a run makes known are the sources of its records, in
      order, after the urls known at its start. */
  lemma {:induction false} PostedKnown(bookmarks: seq<Bookmark>, start: nat, known: seq<string>, ids: nat -> string,
                                      first: nat, now: int, summarize: Summarizer, p: Posting)
    requires p == PostFrom(bookmarks, start, known, ids, first, now, summarize)
    ensures p.known == known + Sources(Flatten(p.posts))
    decreases |bookmarks| - start
  {
    if start < |bookmarks| {
      var s, next := PostFromSplit(bookmarks, start, known, ids, first, now, summarize);
      PostedKnown(bookmarks, start + BatchSize, s.known, ids, first + |s.records|, now, summarize, next);
      KnownPosting(p, s.records, next, known, s.known);
    } else {
      assert p.posts == [] && p.known == known;
      assert Sources(Flatten(p.posts)) == [];
      assert known + [] == known;
    }
  }

  lemma KnownPosting(p: Posting, records: seq<WebExtractor.SingleRecord>, next: Posting, known: seq<string>,
                     known': seq<string>)
    requires p == WithBatch(records, next)
    requires known' == known + Sources(records)
    requires next.known == known' + Sources(Flatten(next.posts))
    ensures p.known == known + Sources(Flatten(p.posts))
  {
    var f := Flatten(next.posts);
    WithBatchFlatten(records, next);
    SourcesAppend(records, f);
    var a, b := Sources(records), Sources(f);
    calc {
      p.known;
      next.known;
      (known + a) + b;
      { ConcatAssoc(known, a, b); }
      known + (a + b);
      known + Sources(records + f);
      known + Sources(Flatten(p.posts));
    }
  }

  /** Every posted record is new, for the script's topic and item, and its
      source has no query. */
  lemma {:induction false} PostedFresh(bookmarks: seq<Bookmark>, start: nat, known: seq<string>, ids: nat -> string,
                                      first: nat, now: int, summarize: Summarizer, p: Posting)
    requires p == PostFrom(bookmarks, start, known, ids, first, now, summarize)
    ensures AllFresh(Flatten(p.posts), now)
    decreases |bookmarks| - start
  {
    if start < |bookmarks| {
      var s, next := PostFromSplit(bookmarks, start, known, ids, first, now, summarize);
      PostedFresh(bookmarks, start + BatchSize, s.known, ids, first + |s.records|, now, summarize, next);
      FreshPosting(p, s.records, next, now);
    }
  }

  lemma FreshPosting(p: Posting, records: seq<WebExtractor.SingleRecord>, next: Posting, now: int)
    requires p == WithBatch(records, next)
    requires AllFresh(records, now) && AllFresh(Flatten(next.posts), now)
    ensures AllFresh(Flatten(p.posts), now)
  {
    WithBatchFlatten(records, next);
    AllFreshAppend(records, Flatten(next.posts), now);
  }

  /** A url is extracted at most once in a run: the sources of all posted
      records are distinct and none was known at the start. */
  lemma {:induction false} PostedNoRepeat(bookmarks: seq<Bookmark>, start: nat, known: seq<string>, ids: nat -> string,
                                         first: nat, now: int, summarize: Summarizer, p: Posting)
    requires p == PostFrom(bookmarks, start, known, ids, first, now, summarize)
    ensures Unrepeated(Sources(Flatten(p.posts)), known)
    decreases |bookmarks| - start
  {
    if start < |bookmarks| {
      var s, next := PostFromSplit(bookmarks, start, known, ids, first, now, summarize);
      PostedNoRepeat(bookmarks, start + BatchSize, s.known, ids, first + |s.records|, now, summarize, next);
      UnrepeatedPosting(p, s.records, next, known, s.known);
    }
  }

  lemma UnrepeatedPosting(p: Posting, records: seq<WebExtractor.SingleRecord>, next: Posting, known: seq<string>,
                          known': seq<string>)
    requires p == WithBatch(records, next)
    requires known' == known + Sources(records)
    requires Unrepeated(Sources(records), known)
    requires Unrepeated(Sources(Flatten(next.posts)), known')
    ensures Unrepeated(Sources(Flatten(p.posts)), known)
  {
    WithBatchFlatten(records, next);
    SourcesAppend(records, Flatten(next.posts));
    UnrepeatedAppend(Sources(records), Sources(Flatten(next.posts)), known);
  }

  lemma {:induction false} FlattenAppend<T>(a: seq<seq<T>>, b: seq<seq<T>>)
    ensures Flatten(a + b) == Flatten(a) + Flatten(b)
    decreases |a|
  {
    if a == [] {
      assert a + b == b;
    } else {
      assert (a + b)[0] == a[0] && (a + b)[1..] == a[1..] + b;
      FlattenAppend(a[1..], b);
    }
  }

  /** The posts a run made before it stopped keep what the posts of the
      whole run promise: none is empty, the records are fresh and their urls
      are new and distinct. */
  lemma PrefixPosts(posts: seq<seq<WebExtractor.SingleRecord>>, whole: seq<seq<WebExtractor.SingleRecord>>,
                    known: seq<string>, now: int)
    requires posts <= whole
    requires forall k :: 0 <= k < |whole| ==> whole[k] != []
    requires AllFresh(Flatten(whole), now) && Unrepeated(Sources(Flatten(whole)), known)
    ensures forall k :: 0 <= k < |posts| ==> posts[k] != []
    ensures AllFresh(Flatten(posts), now) && Unrepeated(Sources(Flatten(posts)), known)
  {
    var rest := whole[|posts|..];
    assert whole == posts + rest;
    FlattenAppend(posts, rest);
    SourcesAppend(Flatten(posts), Flatten(rest));
    var all := Flatten(whole);
    var src := Sources(all);
    assert forall k :: 0 <= k < |Flatten(posts)| ==> Flatten(posts)[k] == all[k];
    assert forall k :: 0 <= k < |Sources(Flatten(posts))| ==> Sources(Flatten(posts))[k] == src[k];
  }

  /** Which inserts raise: a token refresh without an access token raises a
      plain `Exception` that `post_data` does not catch, which ends the
      script. */
  type PostRaises = seq<WebExtractor.SingleRecord> -> bool

  /** What one run of the script did: nothing, all its posts, or its posts
      up to the one that raised. */
  datatype Run = Aborted | Done(posts: seq<seq<WebExtractor.SingleRecord>>) | Stopped(posts: seq<seq<WebExtractor.SingleRecord>>)

  /** The script: pick the base url, read the user's items (iterating a
      failed answer raises, which ends the script), walk the bookmarks and
      insert their summaries batch by batch; an insert that raises ends the
      script. */
  method RunScript(env: string, localUrl: Option<string>, cloudUrl: Option<string>, items: Option<seq<string>>,
                   bar: seq<Node>, ids: nat -> string, now: int, fetch: Fetch, llm: Llm, raises: PostRaises)
    returns (run: Run)
    ensures WebExtractor.ApiBaseUrl(env, localUrl, cloudUrl).Err? || items.None? <==> run.Aborted?
    ensures !run.Aborted? ==>
              var whole := PostFrom(Walk(bar, BookmarkFolder, Some(RootFolder)), 0,
                                    WebExtractor.KnownUrls(items.value), ids, 0, now, Summarizing(fetch, llm)).posts;
              run.posts == UpToFirst(whole, raises) && (run.Done? <==> NoneStop(whole, raises))
    ensures run.Stopped? ==> run.posts != [] && raises(run.posts[|run.posts| - 1])
    ensures !run.Aborted? ==> forall k :: 0 <= k < |run.posts| ==> run.posts[k] != []
    ensures !run.Aborted? ==> AllFresh(Flatten(run.posts), now)
    ensures !run.Aborted? ==> Unrepeated(Sources(Flatten(run.posts)), WebExtractor.KnownUrls(items.value))
  {
    var baseUrl := WebExtractor.ApiBaseUrl(env, localUrl, cloudUrl);
    if baseUrl.Err? || items.None? {
      return Aborted;
    }
    var known := WebExtractor.KnownUrls(items.value);
    var bookmarks := GetBookmarks(bar, BookmarkFolder);
    var posts, _, _, completed := PostAll(bookmarks, known, ids, now, Summarizing(fetch, llm), raises);
    ghost var whole := PostFrom(bookmarks, 0, known, ids, 0, now, Summarizing(fetch, llm));
    PostsNonEmpty(bookmarks, 0, known, ids, 0, now, Summarizing(fetch, llm), whole);
    PostedFresh(bookmarks, 0, known, ids, 0, now, Summarizing(fetch, llm), whole);
    PostedNoRepeat(bookmarks, 0, known, ids, 0, now, Summarizing(fetch, llm), whole);
    PrefixPosts(posts, whole.posts, known, now);
    run := if completed then Done(posts) else Stopped(posts);
  }

  /** The batch loop of the script; `completed` is false when an insert
      raised, which ends the loop. */
  method PostAll(bookmarks: seq<Bookmark>, known0: seq<string>, ids: nat -> string, now: int, summarize: Summarizer,
                 raises: PostRaises)
    returns (posts: seq<seq<WebExtractor.SingleRecord>>, known: seq<string>, used: nat, completed: bool)
    ensures var whole := PostFrom(bookmarks, 0, known0, ids, 0, now, summarize);
            posts == UpToFirst(whole.posts, raises) && (completed <==> NoneStop(whole.posts, raises)) &&
            (completed ==> Posting(posts, known, used) == whole)
  {
    ghost var whole := PostFrom(bookmarks, 0, known0, ids, 0, now, summarize);
    posts, known, used := [], known0, 0;
    var i := 0;
    while i < |bookmarks|
      invariant Posted(whole, posts, used, PostFrom(bookmarks, i, known, ids, used, now, summarize))
      invariant NoneStop(posts, raises)
      decreases |bookmarks| - i
    {
      ghost var rest := PostFrom(bookmarks, i, known, ids, used, now, summarize);
      var records, known', used' := ScanBatch(bookmarks[i..BatchEnd(bookmarks, i)], known, ids, used, now, summarize);
      PostFromStep(bookmarks, i, known, ids, used, now, summarize, records, known', used');
      ghost var next := PostFrom(bookmarks, i + BatchSize, known', ids, used', now, summarize);
      PostedStep(whole, posts, used, records, rest, next);
      known, used := known', used';
      if records != [] {
        if raises(records) {
          PostsStop(whole.posts, posts, records, next.posts, raises);
          return posts + [records], known, used, false;
        }
        NoneStopAppend(posts, [records], raises);
        posts := posts + [records];
      }
      i := i + BatchSize;
    }
    assert whole.posts == posts;
    return posts, known, used, true;
  }

  /** A raising post after posts none of which raised is where the run's
      posts stop. */
  lemma PostsStop(whole: seq<seq<WebExtractor.SingleRecord>>, posts: seq<seq<WebExtractor.SingleRecord>>,
                  records: seq<WebExtractor.SingleRecord>, later: seq<seq<WebExtractor.SingleRecord>>, raises: PostRaises)
    requires whole == (posts + [records]) + later && NoneStop(posts, raises) && raises(records)
    ensures posts + [records] == UpToFirst(whole, raises) && !NoneStop(whole, raises)
  {
    assert whole[|posts|] == records;
    UpToFirstUnique(whole, raises, posts + [records]);
  }

  /** The loop's account: what is posted so far followed by what the
      remaining batches post is what the whole run posts. */
  predicate Posted(whole: Posting, posts: seq<seq<WebExtractor.SingleRecord>>, used: nat, rest: Posting)
  {
    whole == Posting(posts + rest.posts, rest.known, used + rest.used)
  }

  lemma PostedStep(whole: Posting, posts: seq<seq<WebExtractor.SingleRecord>>, used: nat,
                   records: seq<WebExtractor.SingleRecord>, rest: Posting, next: Posting)
    requires Posted(whole, posts, used, rest)
    requires rest == WithBatch(records, next)
    ensures Posted(whole, if records == [] then posts else posts + [records], used + |records|, next)
  {
    if records != [] {
      assert posts + rest.posts == (posts + [records]) + next.posts;
    }
  }

  /** The inner loop over one batch. */
  method ScanBatch(batch: seq<Bookmark>, known0: seq<string>, ids: nat -> string, first: nat, now: int,
                   summarize: Summarizer)
    returns (records: seq<WebExtractor.SingleRecord>, known: seq<string>, used: nat)
    ensures Scanned(records, known) == Scan(batch, known0, ids, first, now, summarize)
    ensures used == first + |records|
  {
    records, known := [], known0;
    for j := 0 to |batch|
      invariant Scanned(records, known) == ScanTo(batch, j, known0, ids, first, now, summarize)
    {
      ghost var before := Scanned(records, known);
      var bm := batch[j];
      var url := BeforeFirst(bm.url, '?');
      if url in known {
        assert Step(before, bm, ids, first, now, summarize) == before;
        continue;
      }
      var answer := summarize(url);
      if answer.Some? {
        var id := ids(first + |records|);
        var record := BookmarkRecord(id, url, bm.title, answer.value, now);
        assert Step(before, bm, ids, first, now, summarize) == Scanned(records + [record], known + [url]);
        known := known + [url];
        records := records + [record];
      } else {
        assert Step(before, bm, ids, first, now, summarize) == before;
      }
    }
    used := first + |records|;
  }
}
