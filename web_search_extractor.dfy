/** The search-and-extract step of the extraction service
    (services/web_extractor/web_search_extactor.py): the articles found
    for a topic by the news or the web search, each article whose url is
    not yet known run through the item extractor, once.

    The searches are oracles: `News` answers the GNews request (its
    "articles" list or `None`, `Err` when `requests` raised) and `Web` the
    Google custom search, which catches its own errors. Any exception
    that escapes the method is the outcome `SearchRaised`. */
module WebSearchExtractor {
  import opened Common
  import opened Extractor
  import NewsClients
  import Timestamp

  /** A topic document as the extraction service receives it. A missing
      `is_multi_item` reads as false, a missing `last_extraction_epoch` as
      `None`. */
  datatype Topic = Topic(id: string, user: string, topicName: string, topicType: string, frequency: string,
                         lastExtraction: Option<int>, isMultiItem: bool, items: seq<TopicItem>)

  /** A search hit: its url and title. */
  datatype SearchArticle = SearchArticle(url: string, title: string)

  type News = (string, string) -> Result<Option<seq<NewsClients.RawArticle>>, string>
  type Web = string -> seq<SearchArticle>

  datatype SingleResult = SingleResult(itemName: string, itemType: string, value: string, url: string,
                                       fullText: string, title: string)

  datatype NamedValue = NamedValue(itemName: string, value: string)

  datatype MultiResult = MultiResult(items: seq<NamedValue>, url: string, fullText: string, title: string)

  datatype SearchOutcome =
    | Found(singles: seq<SingleResult>, multis: seq<MultiResult>, known: seq<string>)
    | SearchRaised

  function FromNews(a: NewsClients.Article): SearchArticle
  {
    SearchArticle(a.url, a.title)
  }

  /** The articles searched for: the news from the last extraction on for a
      news topic, the web hits for a web topic; any other type leaves
      `articles` unbound, which raises. */
  function Articles(topic: Topic, lastExtraction: int, news: News, web: Web): (r: Result<seq<SearchArticle>, string>)
    ensures topic.topicType !in {"news", "web"} ==> r.Err?
    ensures topic.topicType == "web" ==> r == Ok(web(topic.topicName))
  {
    if topic.topicType == "news" then
      match Timestamp.UnixToIso8601(lastExtraction)
      case None => Err("ValueError")
      case Some(fromDate) =>
        match news(topic.topicName, fromDate)
        case Err(e) => Err(e)
        case Ok(response) =>
          var found := if response.None? then [] else NewsClients.ShownAll(NewsClients.Kept(response.value));
          Ok(seq(|found|, i requires 0 <= i < |found| => FromNews(found[i])))
    else if topic.topicType == "web" then Ok(web(topic.topicName))
    else Err("UnboundLocalError")
  }

  /** `str(x)` for a scalar inside a list. */
  function Str(x: Scalar): string
  {
    match x
    case SText(s) => s
    case SInt(i) => IntText(i)
    case SBool(b) => if b then "True" else "False"
    case SNull => "None"
  }

  function Strs(xs: seq<Scalar>): (r: seq<string>)
    ensures |r| == |xs| && forall i :: 0 <= i < |xs| ==> r[i] == Str(xs[i])
  {
    seq(|xs|, i requires 0 <= i < |xs| => Str(xs[i]))
  }

  /** The string stored for one item: a list is joined with "; ", a string
      is kept, anything else and a missing key give "". */
  function ValueString(v: Option<Extracted>): (r: string)
    ensures v.None? || v == Some(OtherValue) ==> r == ""
    ensures v.Some? && v.value.Text? ==> r == v.value.s
    ensures v.Some? && v.value.Items? ==> r == Join(Strs(v.value.elems), "; ")
  {
    match v
    case Some(Items(elems)) => Join(Strs(elems), "; ")
    case Some(Text(s)) => s
    case _ => ""
  }

  /** One entry per topic item, in the topic's order. */
  function ItemsValues(items: seq<TopicItem>, extractions: map<string, Extracted>): (r: seq<NamedValue>)
    ensures |r| == |items|
    ensures forall i :: 0 <= i < |items| ==>
              r[i].itemName == items[i].itemName &&
              r[i].value == ValueString(if items[i].itemName in extractions then Some(extractions[items[i].itemName]) else None)
  {
    seq(|items|, i requires 0 <= i < |items| =>
      NamedValue(items[i].itemName,
                 ValueString(if items[i].itemName in extractions then Some(extractions[items[i].itemName]) else None)))
  }

  function UrlsOf(articles: seq<SearchArticle>): (r: seq<string>)
    ensures |r| == |articles| && forall i :: 0 <= i < |articles| ==> r[i] == articles[i].url
  {
    seq(|articles|, i requires 0 <= i < |articles| => articles[i].url)
  }

  /** The single-item extraction of an article for the topic's first item. */
  function SingleExtraction(url: string, item: TopicItem, fetch: Fetch, llm: Llm): Result<Extraction<string>, string>
  {
    ExtractSingle(url, item.itemType, false, fetch, llm)
  }

  /** A single result made for `topic`: named after its first item and
      holding the summary the extractor gave for the result's url. */
  predicate SingleFits(topic: Topic, r: SingleResult, fetch: Fetch, llm: Llm)
  {
    topic.items != [] && r.itemName == topic.items[0].itemName && r.itemType == topic.items[0].itemType &&
    r.fullText == "" && SingleExtraction(r.url, topic.items[0], fetch, llm) == Ok(Extraction(Some(r.value), ""))
  }

  /** A multi result made for `topic`: one value per topic item, taken from
      the extractor's object for the result's url. */
  predicate MultiFits(topic: Topic, r: MultiResult, fetch: Fetch, llmJson: JsonLlm)
  {
    r.fullText == "" && ExtractMultiple(r.url, topic.items, false, fetch, llmJson).value.Some? &&
    r.items == ItemsValues(topic.items, ExtractMultiple(r.url, topic.items, false, fetch, llmJson).value.value)
  }

  /** Single mode raises on this url: the topic has no item, or the page
      has text and the first item's type names no prompt. */
  predicate SingleRaises(topic: Topic, url: string, fetch: Fetch)
  {
    topic.items == [] || (GetText(url, fetch) != "" && TemplateFor(topic.items[0].itemType).None?)
  }

  /** The single mode's step for one new article: `topic['items'][0]`
      raises `IndexError` on an empty item list, an unknown item type
      raises `KeyError`, and a `None` extraction gives no result. */
  function SingleFor(topic: Topic, a: SearchArticle, fetch: Fetch, llm: Llm): (r: Result<Option<SingleResult>, string>)
    ensures r.Err? <==> SingleRaises(topic, a.url, fetch)
    ensures r.Ok? && r.value.Some? ==>
              r.value.value.url == a.url && r.value.value.title == a.title && SingleFits(topic, r.value.value, fetch, llm)
  {
    if topic.items == [] then Err("IndexError")
    else
      var item := topic.items[0];
      match SingleExtraction(a.url, item, fetch, llm)
      case Err(e) => Err(e)
      case Ok(Extraction(None, _)) => Ok(None)
      case Ok(Extraction(Some(v), fullText)) => Ok(Some(SingleResult(item.itemName, item.itemType, v, a.url, fullText, a.title)))
  }

  /** The multi mode's step for one new article: no result when the
      extractor gave `None`. */
  function MultiFor(topic: Topic, a: SearchArticle, fetch: Fetch, llmJson: JsonLlm): (r: Option<MultiResult>)
    ensures r.Some? <==> ExtractMultiple(a.url, topic.items, false, fetch, llmJson).value.Some?
    ensures r.Some? ==> r.value.url == a.url && r.value.title == a.title && MultiFits(topic, r.value, fetch, llmJson)
  {
    var extraction := ExtractMultiple(a.url, topic.items, false, fetch, llmJson);
    match extraction.value
    case None => None
    case Some(extractions) => Some(MultiResult(ItemsValues(topic.items, extractions), a.url, extraction.fullText, a.title))
  }

  /** The articles the loop extracts, in article order: the first article
      with each url that was not known. */
  function NewArticles(articles: seq<SearchArticle>, known: seq<string>): seq<SearchArticle>
    decreases |articles|
  {
    if articles == [] then []
    else
      var before := NewArticles(articles[..|articles| - 1], known);
      var a := articles[|articles| - 1];
      if a.url in known || a.url in UrlsOf(before) then before else before + [a]
  }

  /** One more article of the list: it is new exactly when its url is
      neither known nor among the new articles so far. */
  lemma NewArticlesStep(articles: seq<SearchArticle>, n: nat, known: seq<string>)
    requires n < |articles|
    ensures var before := NewArticles(articles[..n], known);
            NewArticles(articles[..n + 1], known) ==
              if articles[n].url in known + UrlsOf(before) then before else before + [articles[n]]
    ensures UrlsOf(NewArticles(articles[..n], known) + [articles[n]]) == UrlsOf(NewArticles(articles[..n], known)) + [articles[n].url]
  {
    assert articles[..n + 1][..n] == articles[..n];
  }

  /** The new articles are articles of the list whose urls were not known,
      each the first with its url, no two with the same url, and every url
      of the list that was not known is among them. */
  lemma {:induction false} NewArticlesMembers(articles: seq<SearchArticle>, known: seq<string>)
    ensures var r := NewArticles(articles, known);
            (forall k :: 0 <= k < |r| ==>
               r[k].url !in known &&
               exists i :: 0 <= i < |articles| && articles[i] == r[k] && forall j :: 0 <= j < i ==> articles[j].url != r[k].url) &&
            (forall k, m :: 0 <= k < m < |r| ==> r[k].url != r[m].url) &&
            (forall i :: 0 <= i < |articles| && articles[i].url !in known ==> articles[i].url in UrlsOf(r))
    decreases |articles|
  {
    if articles != [] {
      var n := |articles| - 1;
      var init := articles[..n];
      var before := NewArticles(init, known);
      var a := articles[n];
      NewArticlesMembers(init, known);
      var r := NewArticles(articles, known);
      forall k | 0 <= k < |r|
        ensures r[k].url !in known
        ensures exists i :: 0 <= i < |articles| && articles[i] == r[k] && forall j :: 0 <= j < i ==> articles[j].url != r[k].url
      {
        if k < |before| {
          var i :| 0 <= i < |init| && init[i] == before[k] && forall j :: 0 <= j < i ==> init[j].url != before[k].url;
          assert articles[i] == r[k] && forall j :: 0 <= j < i ==> articles[j].url == init[j].url;
        } else {
          assert r[k] == a && a.url !in UrlsOf(before);
          forall j | 0 <= j < n
            ensures articles[j].url != a.url
          {
            assert articles[j] == init[j];
            if init[j].url !in known {
              assert init[j].url in UrlsOf(before);
            }
          }
        }
      }
      forall i | 0 <= i < |articles| && articles[i].url !in known
        ensures articles[i].url in UrlsOf(r)
      {
        if i < n {
          assert articles[i] == init[i];
          assert UrlsOf(before) <= UrlsOf(r);
        } else if a.url !in UrlsOf(before) {
          assert UrlsOf(r)[|before|] == a.url;
        }
      }
    }
  }

  /** The single mode over the new articles, in order: the first raising
      article raises, otherwise one result per article whose extraction
      gave a summary. */
  function SinglesOver(topic: Topic, news: seq<SearchArticle>, fetch: Fetch, llm: Llm): Result<seq<SingleResult>, string>
    decreases |news|
  {
    if news == [] then Ok([])
    else
      match SinglesOver(topic, news[..|news| - 1], fetch, llm)
      case Err(e) => Err(e)
      case Ok(rs) =>
        match SingleFor(topic, news[|news| - 1], fetch, llm)
        case Err(e) => Err(e)
        case Ok(None) => Ok(rs)
        case Ok(Some(r)) => Ok(rs + [r])
  }

  /** The multi mode over the new articles, in order: one result per
      article the extractor gave an object for. */
  function MultisOver(topic: Topic, news: seq<SearchArticle>, fetch: Fetch, llmJson: JsonLlm): seq<MultiResult>
    decreases |news|
  {
    if news == [] then []
    else
      var rs := MultisOver(topic, news[..|news| - 1], fetch, llmJson);
      match MultiFor(topic, news[|news| - 1], fetch, llmJson)
      case None => rs
      case Some(r) => rs + [r]
  }

  lemma MultisOverAppend(topic: Topic, news: seq<SearchArticle>, a: SearchArticle, fetch: Fetch, llmJson: JsonLlm)
    ensures MultisOver(topic, news + [a], fetch, llmJson) ==
              MultisOver(topic, news, fetch, llmJson) +
              (if MultiFor(topic, a, fetch, llmJson).Some? then [MultiFor(topic, a, fetch, llmJson).value] else [])
  {
    assert (news + [a])[..|news|] == news;
  }

  /** Single mode raises exactly when one of the articles raises, and
      otherwise misses no summary: each article whose extraction gives one
      has its result reported. */
  lemma {:induction false} SinglesOverComplete(topic: Topic, news: seq<SearchArticle>, fetch: Fetch, llm: Llm)
    ensures SinglesOver(topic, news, fetch, llm).Err? <==> exists a :: a in news && SingleRaises(topic, a.url, fetch)
    ensures SinglesOver(topic, news, fetch, llm).Ok? ==>
              forall a :: a in news && SingleFor(topic, a, fetch, llm).value.Some? ==>
                SingleFor(topic, a, fetch, llm).value.value in SinglesOver(topic, news, fetch, llm).value
    decreases |news|
  {
    if news != [] {
      var init := news[..|news| - 1];
      SinglesOverComplete(topic, init, fetch, llm);
      assert forall a :: a in news <==> a in init || a == news[|news| - 1];
    }
  }

  /** Multi mode misses no extraction: each article the extractor gives an
      object for has its result reported. */
  lemma {:induction false} MultisOverComplete(topic: Topic, news: seq<SearchArticle>, fetch: Fetch, llmJson: JsonLlm)
    ensures forall a :: a in news && MultiFor(topic, a, fetch, llmJson).Some? ==>
              MultiFor(topic, a, fetch, llmJson).value in MultisOver(topic, news, fetch, llmJson)
    decreases |news|
  {
    if news != [] {
      var init := news[..|news| - 1];
      MultisOverComplete(topic, init, fetch, llmJson);
      assert forall a :: a in news <==> a in init || a == news[|news| - 1];
    }
  }

  /** `urls` is `known` followed by distinct urls of the articles that
      were not known. */
  predicate GrowsKnown(urls: seq<string>, known: seq<string>, articles: seq<SearchArticle>)
  {
    |urls| >= |known| && urls[..|known|] == known &&
    (forall i, j :: |known| <= i < j < |urls| ==> urls[i] != urls[j]) &&
    (forall i :: |known| <= i < |urls| ==> urls[i] !in known && urls[i] in UrlsOf(articles))
  }

  /** Results carry distinct urls, each a new url of the articles. */
  predicate ResultUrls(urls: seq<string>, known: seq<string>, resultUrls: seq<string>)
    requires |urls| >= |known|
  {
    (forall i, j :: 0 <= i < j < |resultUrls| ==> resultUrls[i] != resultUrls[j]) &&
    (forall i :: 0 <= i < |resultUrls| ==> resultUrls[i] in urls[|known|..])
  }

  function SingleUrls(rs: seq<SingleResult>): (r: seq<string>)
    ensures |r| == |rs| && forall i :: 0 <= i < |rs| ==> r[i] == rs[i].url
  {
    seq(|rs|, i requires 0 <= i < |rs| => rs[i].url)
  }

  function MultiUrls(rs: seq<MultiResult>): (r: seq<string>)
    ensures |r| == |rs| && forall i :: 0 <= i < |rs| ==> r[i] == rs[i].url
  {
    seq(|rs|, i requires 0 <= i < |rs| => rs[i].url)
  }

  /** Appending the new articles' urls to the known ones grows the known
      urls by distinct new article urls, and leaves every article's url
      known. */
  lemma {:induction false} NewArticlesGrowKnown(articles: seq<SearchArticle>, known: seq<string>)
    ensures GrowsKnown(known + UrlsOf(NewArticles(articles, known)), known, articles)
    ensures forall a :: a in articles ==> a.url in known + UrlsOf(NewArticles(articles, known))
    ensures forall a :: a in NewArticles(articles, known) ==> a in articles && a.url !in known
    ensures forall k, m :: 0 <= k < m < |NewArticles(articles, known)| ==>
              NewArticles(articles, known)[k].url != NewArticles(articles, known)[m].url
  {
    var r := NewArticles(articles, known);
    NewArticlesMembers(articles, known);
    var urls := known + UrlsOf(r);
    assert urls[..|known|] == known;
    forall i | |known| <= i < |urls|
      ensures urls[i] in UrlsOf(articles)
    {
      var k := i - |known|;
      var x :| 0 <= x < |articles| && articles[x] == r[k] && forall j :: 0 <= j < x ==> articles[j].url != r[k].url;
      assert UrlsOf(articles)[x] == urls[i];
    }
    forall a | a in r
      ensures a in articles
    {
      var k :| 0 <= k < |r| && r[k] == a;
      var x :| 0 <= x < |articles| && articles[x] == r[k] && forall j :: 0 <= j < x ==> articles[j].url != r[k].url;
    }
    forall a | a in articles
      ensures a.url in urls
    {
      var x :| 0 <= x < |articles| && articles[x] == a;
    }
  }

  /** Results over articles with distinct urls carry distinct urls, each
      that of one of those articles, and fit the topic. */
  lemma SinglesOverFit(topic: Topic, news: seq<SearchArticle>, fetch: Fetch, llm: Llm)
    requires forall k, m :: 0 <= k < m < |news| ==> news[k].url != news[m].url
    requires SinglesOver(topic, news, fetch, llm).Ok?
    ensures var rs := SinglesOver(topic, news, fetch, llm).value;
            (forall i, j :: 0 <= i < j < |rs| ==> rs[i].url != rs[j].url) &&
            (forall r :: r in rs ==> SearchArticle(r.url, r.title) in news && r.url in UrlsOf(news) &&
                                     SingleFits(topic, r, fetch, llm))
  {
    SinglesOverDistinct(topic, news, fetch, llm);
    SinglesOverFitTopic(topic, news, fetch, llm);
  }

  /** Results over articles with distinct urls carry distinct urls, each
      that of one of those articles. */
  lemma {:induction false} SinglesOverDistinct(topic: Topic, news: seq<SearchArticle>, fetch: Fetch, llm: Llm)
    requires forall k, m :: 0 <= k < m < |news| ==> news[k].url != news[m].url
    requires SinglesOver(topic, news, fetch, llm).Ok?
    ensures var rs := SinglesOver(topic, news, fetch, llm).value;
            (forall i, j :: 0 <= i < j < |rs| ==> rs[i].url != rs[j].url) &&
            (forall r :: r in rs ==> SearchArticle(r.url, r.title) in news && r.url in UrlsOf(news))
    decreases |news|
  {
    if news != [] {
      var init := news[..|news| - 1];
      var a := news[|news| - 1];
      SinglesOverDistinct(topic, init, fetch, llm);
      var rs := SinglesOver(topic, init, fetch, llm).value;
      var out := SinglesOver(topic, news, fetch, llm).value;
      assert forall x :: x in init ==> x in news;
      assert UrlsOf(news) == UrlsOf(init) + [a.url];
      forall r | r in rs
        ensures r.url != a.url
      {
        var k :| 0 <= k < |init| && init[k] == SearchArticle(r.url, r.title);
        assert news[k] == init[k];
      }
      var step := SingleFor(topic, a, fetch, llm).value;
      if step.Some? {
        var r := step.value;
        assert out == rs + [r];
        forall i, j | 0 <= i < j < |out|
          ensures out[i].url != out[j].url
        {
          assert out[i] == rs[i] && rs[i] in rs;
        }
      } else {
        assert out == rs;
      }
    }
  }

  /** Every result fits the topic. */
  lemma {:induction false} SinglesOverFitTopic(topic: Topic, news: seq<SearchArticle>, fetch: Fetch, llm: Llm)
    requires SinglesOver(topic, news, fetch, llm).Ok?
    ensures forall r :: r in SinglesOver(topic, news, fetch, llm).value ==> SingleFits(topic, r, fetch, llm)
    decreases |news|
  {
    if news != [] {
      SinglesOverFitTopic(topic, news[..|news| - 1], fetch, llm);
    }
  }

  /** Results over articles with distinct urls carry distinct urls, each
      that of one of those articles, and fit the topic. */
  lemma MultisOverFit(topic: Topic, news: seq<SearchArticle>, fetch: Fetch, llmJson: JsonLlm)
    requires forall k, m :: 0 <= k < m < |news| ==> news[k].url != news[m].url
    ensures var rs := MultisOver(topic, news, fetch, llmJson);
            (forall i, j :: 0 <= i < j < |rs| ==> rs[i].url != rs[j].url) &&
            (forall r :: r in rs ==> SearchArticle(r.url, r.title) in news && r.url in UrlsOf(news) &&
                                     MultiFits(topic, r, fetch, llmJson))
  {
    MultisOverDistinct(topic, news, fetch, llmJson);
    MultisOverFitTopic(topic, news, fetch, llmJson);
  }

  /** Results over articles with distinct urls carry distinct urls, each
      that of one of those articles. */
  lemma {:induction false} MultisOverDistinct(topic: Topic, news: seq<SearchArticle>, fetch: Fetch, llmJson: JsonLlm)
    requires forall k, m :: 0 <= k < m < |news| ==> news[k].url != news[m].url
    ensures var rs := MultisOver(topic, news, fetch, llmJson);
            (forall i, j :: 0 <= i < j < |rs| ==> rs[i].url != rs[j].url) &&
            (forall r :: r in rs ==> SearchArticle(r.url, r.title) in news && r.url in UrlsOf(news))
    decreases |news|
  {
    if news != [] {
      var init := news[..|news| - 1];
      var a := news[|news| - 1];
      MultisOverDistinct(topic, init, fetch, llmJson);
      var rs := MultisOver(topic, init, fetch, llmJson);
      var out := MultisOver(topic, news, fetch, llmJson);
      var step := MultiFor(topic, a, fetch, llmJson);
      assert out == rs + (if step.Some? then [step.value] else []);
      assert UrlsOf(news) == UrlsOf(init) + [a.url];
      forall r | r in rs
        ensures r.url != a.url
      {
        var k :| 0 <= k < |init| && init[k] == SearchArticle(r.url, r.title);
      }
      forall r | r in out
        ensures SearchArticle(r.url, r.title) in news && r.url in UrlsOf(news)
      {
        if r in rs {
          assert SearchArticle(r.url, r.title) in init;
        } else {
          assert r == step.value;
        }
      }
    }
  }

  /** Every result fits the topic. */
  lemma {:induction false} MultisOverFitTopic(topic: Topic, news: seq<SearchArticle>, fetch: Fetch, llmJson: JsonLlm)
    ensures forall r :: r in MultisOver(topic, news, fetch, llmJson) ==> MultiFits(topic, r, fetch, llmJson)
    decreases |news|
  {
    if news != [] {
      MultisOverFitTopic(topic, news[..|news| - 1], fetch, llmJson);
    }
  }

  /** What single mode promises when no new article raises. */
  predicate SinglesFound(topic: Topic, articles: seq<SearchArticle>, known: seq<string>, outcome: SearchOutcome,
                         fetch: Fetch, llm: Llm)
  {
    outcome.Found? &&
    GrowsKnown(outcome.known, known, articles) && (forall a :: a in articles ==> a.url in outcome.known) &&
    ResultUrls(outcome.known, known, SingleUrls(outcome.singles)) && outcome.multis == [] &&
    (forall r :: r in outcome.singles ==> SearchArticle(r.url, r.title) in articles && SingleFits(topic, r, fetch, llm)) &&
    (forall a :: a in articles && a.url !in known ==> !SingleRaises(topic, a.url, fetch))
  }

  /** What multi mode promises. */
  predicate MultisFound(topic: Topic, articles: seq<SearchArticle>, known: seq<string>, outcome: SearchOutcome,
                        fetch: Fetch, llmJson: JsonLlm)
  {
    outcome.Found? &&
    GrowsKnown(outcome.known, known, articles) && (forall a :: a in articles ==> a.url in outcome.known) &&
    ResultUrls(outcome.known, known, MultiUrls(outcome.multis)) && outcome.singles == [] &&
    (forall r :: r in outcome.multis ==> SearchArticle(r.url, r.title) in articles && MultiFits(topic, r, fetch, llmJson))
  }

  /** The single mode's reference result: it raises exactly when an article
      that was not known raises, and otherwise meets `SinglesFound`. */
  lemma SinglesReference(topic: Topic, articles: seq<SearchArticle>, known: seq<string>, fetch: Fetch, llm: Llm)
    ensures var unseen := NewArticles(articles, known);
            (SinglesOver(topic, unseen, fetch, llm).Err? <==>
               exists a :: a in articles && a.url !in known && SingleRaises(topic, a.url, fetch)) &&
            (SinglesOver(topic, unseen, fetch, llm).Ok? ==>
               SinglesFound(topic, articles, known,
                            Found(SinglesOver(topic, unseen, fetch, llm).value, [], known + UrlsOf(unseen)), fetch, llm))
  {
    var unseen := NewArticles(articles, known);
    var urls := known + UrlsOf(unseen);
    NewArticlesGrowKnown(articles, known);
    NewArticlesMembers(articles, known);
    SinglesOverComplete(topic, unseen, fetch, llm);
    assert urls[|known|..] == UrlsOf(unseen);
    forall a | a in articles && a.url !in known && SingleRaises(topic, a.url, fetch)
      ensures SinglesOver(topic, unseen, fetch, llm).Err?
    {
      var x :| 0 <= x < |articles| && articles[x] == a;
      var k :| 0 <= k < |unseen| && UrlsOf(unseen)[k] == a.url;
      assert unseen[k] in unseen && SingleRaises(topic, unseen[k].url, fetch);
    }
    if SinglesOver(topic, unseen, fetch, llm).Ok? {
      SinglesOverFit(topic, unseen, fetch, llm);
      var rs := SinglesOver(topic, unseen, fetch, llm).value;
      forall a | a in articles && a.url !in known
        ensures !SingleRaises(topic, a.url, fetch)
      {
        var x :| 0 <= x < |articles| && articles[x] == a;
        var k :| 0 <= k < |unseen| && UrlsOf(unseen)[k] == a.url;
        assert unseen[k] in unseen;
      }
      forall i | 0 <= i < |rs|
        ensures SingleUrls(rs)[i] in urls[|known|..]
      {
        assert rs[i] in rs;
      }
    }
  }

  /** The multi mode's reference result meets `MultisFound`. */
  lemma MultisReference(topic: Topic, articles: seq<SearchArticle>, known: seq<string>, fetch: Fetch, llmJson: JsonLlm)
    ensures var unseen := NewArticles(articles, known);
            MultisFound(topic, articles, known,
                        Found([], MultisOver(topic, unseen, fetch, llmJson), known + UrlsOf(unseen)), fetch, llmJson)
  {
    var unseen := NewArticles(articles, known);
    var urls := known + UrlsOf(unseen);
    NewArticlesGrowKnown(articles, known);
    MultisOverFit(topic, unseen, fetch, llmJson);
    assert urls[|known|..] == UrlsOf(unseen);
    var rs := MultisOver(topic, unseen, fetch, llmJson);
    forall i | 0 <= i < |rs|
      ensures MultiUrls(rs)[i] in urls[|known|..]
    {
      assert rs[i] in rs;
    }
  }

  /** One turn of the single-mode loop keeps its invariants: an article
      whose url is known changes nothing, any other adds its url and its
      result, or raises. */
  lemma SinglesStep(topic: Topic, articles: seq<SearchArticle>, n: nat, known: seq<string>, fetch: Fetch, llm: Llm,
                    urls: seq<string>, singles: seq<SingleResult>)
    requires n < |articles|
    requires urls == known + UrlsOf(NewArticles(articles[..n], known))
    requires SinglesOver(topic, NewArticles(articles[..n], known), fetch, llm) == Ok(singles)
    ensures articles[n].url in urls ==>
              urls == known + UrlsOf(NewArticles(articles[..n + 1], known)) &&
              SinglesOver(topic, NewArticles(articles[..n + 1], known), fetch, llm) == Ok(singles)
    ensures articles[n].url !in urls ==>
              urls + [articles[n].url] == known + UrlsOf(NewArticles(articles[..n + 1], known)) &&
              SinglesOver(topic, NewArticles(articles[..n + 1], known), fetch, llm) ==
                match SingleFor(topic, articles[n], fetch, llm)
                case Err(e) => Err(e)
                case Ok(None) => Ok(singles)
                case Ok(Some(r)) => Ok(singles + [r])
  {
    NewArticlesStep(articles, n, known);
    var before := NewArticles(articles[..n], known);
    if articles[n].url !in urls {
      assert (before + [articles[n]])[..|before|] == before;
    }
  }

  /** One turn of the multi-mode loop keeps its invariants: an article
      whose url is known changes nothing, any other adds its url and its
      result when the extractor gave one. */
  lemma MultisStep(topic: Topic, articles: seq<SearchArticle>, n: nat, known: seq<string>, fetch: Fetch,
                   llmJson: JsonLlm, urls: seq<string>, multis: seq<MultiResult>)
    requires n < |articles|
    requires urls == known + UrlsOf(NewArticles(articles[..n], known))
    requires MultisOver(topic, NewArticles(articles[..n], known), fetch, llmJson) == multis
    ensures articles[n].url in urls ==>
              urls == known + UrlsOf(NewArticles(articles[..n + 1], known)) &&
              MultisOver(topic, NewArticles(articles[..n + 1], known), fetch, llmJson) == multis
    ensures articles[n].url !in urls ==>
              urls + [articles[n].url] == known + UrlsOf(NewArticles(articles[..n + 1], known)) &&
              MultisOver(topic, NewArticles(articles[..n + 1], known), fetch, llmJson) ==
                multis + (if MultiFor(topic, articles[n], fetch, llmJson).Some?
                          then [MultiFor(topic, articles[n], fetch, llmJson).value] else [])
  {
    NewArticlesStep(articles, n, known);
    var before := NewArticles(articles[..n], known);
    if articles[n].url !in urls {
      assert NewArticles(articles[..n + 1], known) == before + [articles[n]];
      MultisOverAppend(topic, before, articles[n], fetch, llmJson);
    }
  }

  /** The loop of `get_search_and_extractions` in single mode: every
      article whose url is not yet known is added to the known urls and
      summarized once; the first raising article stops the loop. */
  method ExtractSingles(topic: Topic, articles: seq<SearchArticle>, known: seq<string>, fetch: Fetch, llm: Llm)
    returns (outcome: SearchOutcome)
    ensures outcome.SearchRaised? <==> SinglesOver(topic, NewArticles(articles, known), fetch, llm).Err?
    ensures outcome.Found? ==>
              SinglesOver(topic, NewArticles(articles, known), fetch, llm) == Ok(outcome.singles) &&
              outcome.multis == [] && outcome.known == known + UrlsOf(NewArticles(articles, known))
    ensures outcome.SearchRaised? <==> exists a :: a in articles && a.url !in known && SingleRaises(topic, a.url, fetch)
    ensures outcome.Found? ==> SinglesFound(topic, articles, known, outcome, fetch, llm)
  {
    var urls := known;
    var singles: seq<SingleResult> := [];
    for n := 0 to |articles|
      invariant urls == known + UrlsOf(NewArticles(articles[..n], known))
      invariant SinglesOver(topic, NewArticles(articles[..n], known), fetch, llm) == Ok(singles)
    {
      var article := articles[n];
      SinglesStep(topic, articles, n, known, fetch, llm, urls, singles);
      if article.url in urls {
        continue;
      }
      var result := SingleFor(topic, article, fetch, llm);
      if result.Err? {
        SinglesReference(topic, articles, known, fetch, llm);
        assert article in articles;
        return SearchRaised;
      }
      if result.value.Some? {
        singles := singles + [result.value.value];
      }
      urls := urls + [article.url];
    }
    assert articles[..|articles|] == articles;
    SinglesReference(topic, articles, known, fetch, llm);
    return Found(singles, [], urls);
  }

  /** The loop of `get_search_and_extractions` in multi mode: every article
      whose url is not yet known is added to the known urls and has its
      items extracted once. */
  method ExtractMultis(topic: Topic, articles: seq<SearchArticle>, known: seq<string>, fetch: Fetch, llmJson: JsonLlm)
    returns (outcome: SearchOutcome)
    ensures outcome == Found([], MultisOver(topic, NewArticles(articles, known), fetch, llmJson),
                             known + UrlsOf(NewArticles(articles, known)))
    ensures MultisFound(topic, articles, known, outcome, fetch, llmJson)
  {
    var urls := known;
    var multis: seq<MultiResult> := [];
    for n := 0 to |articles|
      invariant urls == known + UrlsOf(NewArticles(articles[..n], known))
      invariant MultisOver(topic, NewArticles(articles[..n], known), fetch, llmJson) == multis
    {
      var article := articles[n];
      MultisStep(topic, articles, n, known, fetch, llmJson, urls, multis);
      if article.url in urls {
        continue;
      }
      var result := MultiFor(topic, article, fetch, llmJson);
      if result.Some? {
        multis := multis + [result.value];
      }
      urls := urls + [article.url];
    }
    assert articles[..|articles|] == articles;
    MultisReference(topic, articles, known, fetch, llmJson);
    return Found([], multis, urls);
  }

  /** The loop of `get_search_and_extractions`; the topic's mode does not
      change inside the loop, so the branch on it is taken once. */
  method Extract(topic: Topic, articles: seq<SearchArticle>, known: seq<string>,
                 fetch: Fetch, llm: Llm, llmJson: JsonLlm)
    returns (outcome: SearchOutcome)
    ensures outcome.SearchRaised? <==>
              !topic.isMultiItem && exists a :: a in articles && a.url !in known && SingleRaises(topic, a.url, fetch)
    ensures !topic.isMultiItem && outcome.Found? ==>
              SinglesOver(topic, NewArticles(articles, known), fetch, llm) == Ok(outcome.singles) &&
              outcome.multis == [] && outcome.known == known + UrlsOf(NewArticles(articles, known)) &&
              SinglesFound(topic, articles, known, outcome, fetch, llm)
    ensures topic.isMultiItem ==>
              outcome == Found([], MultisOver(topic, NewArticles(articles, known), fetch, llmJson),
                               known + UrlsOf(NewArticles(articles, known))) &&
              MultisFound(topic, articles, known, outcome, fetch, llmJson)
  {
    if topic.isMultiItem {
      outcome := ExtractMultis(topic, articles, known, fetch, llmJson);
    } else {
      outcome := ExtractSingles(topic, articles, known, fetch, llm);
    }
  }

  /** Results only carry urls that were not known before the call. */
  lemma {:induction false} ResultsAreNew(urls: seq<string>, known: seq<string>, articles: seq<SearchArticle>,
                                         resultUrls: seq<string>)
    requires GrowsKnown(urls, known, articles) && ResultUrls(urls, known, resultUrls)
    ensures forall i :: 0 <= i < |resultUrls| ==> resultUrls[i] !in known
  {
    forall i | 0 <= i < |resultUrls|
      ensures resultUrls[i] !in known
    {
      var j :| |known| <= j < |urls| && urls[j] == resultUrls[i] by {
        assert resultUrls[i] in urls[|known|..];
      }
    }
  }

  /** The search step raises: the search itself raised, or, in single mode,
      an article that was not known makes the extractor raise. */
  predicate SearchRaises(topic: Topic, lastExtraction: int, known: seq<string>, news: News, web: Web, fetch: Fetch)
  {
    var articles := Articles(topic, lastExtraction, news, web);
    articles.Err? ||
    (!topic.isMultiItem && exists a :: a in articles.value && RaisingArticle(topic, a, known, fetch))
  }

  /** An article that was not known and makes single mode raise. */
  predicate RaisingArticle(topic: Topic, a: SearchArticle, known: seq<string>, fetch: Fetch)
  {
    a.url !in known && SingleRaises(topic, a.url, fetch)
  }

  /** `get_search_and_extractions`: the search for the topic, then `Extract`. */
  method GetSearchAndExtractions(topic: Topic, lastExtraction: int, known: seq<string>, news: News, web: Web,
                                 fetch: Fetch, llm: Llm, llmJson: JsonLlm)
    returns (outcome: SearchOutcome)
    ensures outcome.SearchRaised? <==> SearchRaises(topic, lastExtraction, known, news, web, fetch)
    ensures outcome.Found? ==>
              Articles(topic, lastExtraction, news, web).Ok? &&
              var articles := Articles(topic, lastExtraction, news, web).value;
              var unseen := NewArticles(articles, known);
              outcome.known == known + UrlsOf(unseen) &&
              (!topic.isMultiItem ==> SinglesOver(topic, unseen, fetch, llm) == Ok(outcome.singles) && outcome.multis == [] &&
                                      forall r :: r in outcome.singles ==>
                                        SearchArticle(r.url, r.title) in articles && r.url !in known && SingleFits(topic, r, fetch, llm)) &&
              (topic.isMultiItem ==> outcome.multis == MultisOver(topic, unseen, fetch, llmJson) && outcome.singles == [] &&
                                     forall r :: r in outcome.multis ==>
                                       SearchArticle(r.url, r.title) in articles && r.url !in known && MultiFits(topic, r, fetch, llmJson))
  {
    var articles := Articles(topic, lastExtraction, news, web);
    if articles.Err? {
      return SearchRaised;
    }
    outcome := Extract(topic, articles.value, known, fetch, llm, llmJson);
    if outcome.Found? {
      FoundResultsAreNew(articles.value, known, outcome);
    }
  }

  /** No result of a completed search carries a url that was known. */
  lemma FoundResultsAreNew(articles: seq<SearchArticle>, known: seq<string>, outcome: SearchOutcome)
    requires outcome.Found? && GrowsKnown(outcome.known, known, articles)
    requires ResultUrls(outcome.known, known, SingleUrls(outcome.singles))
    requires ResultUrls(outcome.known, known, MultiUrls(outcome.multis))
    ensures forall r :: r in outcome.singles ==> r.url !in known
    ensures forall r :: r in outcome.multis ==> r.url !in known
  {
    ResultsAreNew(outcome.known, known, articles, SingleUrls(outcome.singles));
    ResultsAreNew(outcome.known, known, articles, MultiUrls(outcome.multis));
    forall r | r in outcome.singles
      ensures r.url !in known
    {
      var i :| 0 <= i < |outcome.singles| && outcome.singles[i] == r;
      assert SingleUrls(outcome.singles)[i] == r.url;
    }
    forall r | r in outcome.multis
      ensures r.url !in known
    {
      var i :| 0 <= i < |outcome.multis| && outcome.multis[i] == r;
      assert MultiUrls(outcome.multis)[i] == r.url;
    }
  }
}
