/** The news search client of the extraction service
    (services/web_extractor/news_clients.py): the articles GNews returns,
    with repeated descriptions dropped.

    The HTTP call and JSON decoding are the `response` argument: the list
    under "articles", or `None` when the answer has no such key. */
module NewsClients {

  import opened Common

  /** One article of the GNews answer; `description` is `None` for JSON null. */
  datatype RawArticle = RawArticle(title: string, description: Option<string>, publishedAt: string, url: string)

  /** One article as the client hands it on. */
  datatype Article = Article(title: string, publishedAt: string, url: string)

  function Descriptions(articles: seq<RawArticle>): (r: seq<Option<string>>)
    ensures |r| == |articles| && forall i :: 0 <= i < |articles| ==> r[i] == articles[i].description
  {
    seq(|articles|, i requires 0 <= i < |articles| => articles[i].description)
  }

  /** The articles the loop keeps: each one whose description was not seen
      earlier. */
  function Kept(raw: seq<RawArticle>): (r: seq<RawArticle>)
    ensures |r| <= |raw|
  {
    if raw == [] then []
    else
      var k := Kept(raw[..|raw| - 1]);
      if raw[|raw| - 1].description in Descriptions(k) then k else k + [raw[|raw| - 1]]
  }

  function Shown(a: RawArticle): (r: Article)
    ensures r.title == a.title && r.publishedAt == a.publishedAt && r.url == a.url
  {
    Article(a.title, a.publishedAt, a.url)
  }

  function ShownAll(articles: seq<RawArticle>): (r: seq<Article>)
    ensures |r| == |articles| && forall i :: 0 <= i < |articles| ==> r[i] == Shown(articles[i])
  {
    seq(|articles|, i requires 0 <= i < |articles| => Shown(articles[i]))
  }

  /** No two kept articles share a description. */
  lemma {:induction false} KeptDistinct(raw: seq<RawArticle>)
    ensures forall i, j :: 0 <= i < j < |Kept(raw)| ==> Kept(raw)[i].description != Kept(raw)[j].description
  {
    if raw != [] {
      var k := Kept(raw[..|raw| - 1]);
      KeptDistinct(raw[..|raw| - 1]);
      var last := raw[|raw| - 1];
      if last.description !in Descriptions(k) {
        forall i | 0 <= i < |k|
          ensures k[i].description != last.description
        {
          assert Descriptions(k)[i] == k[i].description;
        }
      }
    }
  }

  /** Every kept article comes from the input. */
  lemma {:induction false} KeptFromInput(raw: seq<RawArticle>)
    ensures forall x :: x in Kept(raw) ==> x in raw
  {
    if raw != [] {
      KeptFromInput(raw[..|raw| - 1]);
      forall x | x in raw[..|raw| - 1]
        ensures x in raw
      {
      }
    }
  }

  /** The first article with a given description is kept, so every
      description of the input survives. */
  lemma {:induction false} FirstOccurrenceKept(raw: seq<RawArticle>, i: nat)
    requires i < |raw|
    requires forall j :: 0 <= j < i ==> raw[j].description != raw[i].description
    ensures raw[i] in Kept(raw)
  {
    var init := raw[..|raw| - 1];
    if i < |raw| - 1 {
      FirstOccurrenceKept(init, i);
    } else {
      KeptDescriptions(init, raw[i].description);
      forall j | 0 <= j < |init|
        ensures Descriptions(init)[j] != raw[i].description
      {
      }
      assert Kept(raw) == Kept(init) + [raw[i]];
    }
  }

  /** Dropping repeats loses no description: each one of the raw list is
      still carried by some kept article, and no new one appears. */
  lemma {:induction false} KeptDescriptions(raw: seq<RawArticle>, d: Option<string>)
    ensures d in Descriptions(raw) <==> d in Descriptions(Kept(raw))
  {
    if raw != [] {
      var init := raw[..|raw| - 1];
      KeptDescriptions(init, d);
      assert Descriptions(raw) == Descriptions(init) + [raw[|raw| - 1].description];
      var k := Kept(init);
      if raw[|raw| - 1].description !in Descriptions(k) {
        assert Descriptions(k + [raw[|raw| - 1]]) == Descriptions(k) + [raw[|raw| - 1].description];
      }
    }
  }

  /** `fetch_news` after the request: the list under "articles" without
      repeated descriptions, or nothing when the key is missing. */
  method FetchNews(response: Option<seq<RawArticle>>) returns (articles: seq<Article>)
    ensures response.None? ==> articles == []
    ensures response.Some? ==> articles == ShownAll(Kept(response.value))
    ensures response.Some? ==> |articles| <= |response.value|
  {
    articles := [];
    var extractedDescription: seq<Option<string>> := [];
    if response.Some? {
      var raw := response.value;
      ghost var kept: seq<RawArticle> := [];
      for i := 0 to |raw|
        invariant kept == Kept(raw[..i])
        invariant articles == ShownAll(kept)
        invariant extractedDescription == Descriptions(kept)
      {
        assert raw[..i + 1][..i] == raw[..i];
        var article := raw[i];
        if article.description in extractedDescription {
          continue;
        }
        articles := articles + [Article(article.title, article.publishedAt, article.url)];
        extractedDescription := extractedDescription + [article.description];
        kept := kept + [article];
      }
      assert raw[..|raw|] == raw;
    }
  }
}
