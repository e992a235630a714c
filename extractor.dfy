/** The item extractor of the extraction service
    (services/web_extractor/extractor.py): it fetches a page's text,
    rewriting arXiv PDF links to their HTML pages, and asks the language
    model for a summary of one kind or for a JSON object of named items.

    The page fetch (`requests.get` plus BeautifulSoup's text extraction)
    is the oracle `Fetch`, `None` when `requests` raised. The language
    model is `Llm` for plain answers and `JsonLlm` for parsed JSON
    answers, `None` when the wrapper caught an error. */
module Extractor {
  import opened Common

  type Fetch = string -> Option<string>

  /** The three prompt templates of the prompt module; "explain" shares
      the medium one. */
  datatype Template = ShortSummary | MediumSummary | LongSummary

  /** What is sent to the model: a summary template filled with a text, or
      the combine template filled with the summary so far and the next
      piece. */
  datatype Prompt = Summarize(template: Template, text: string) | Combine(summary: string, subtext: string)

  type Llm = Prompt -> Option<string>

  /** A scalar JSON value inside a list, and a value of the object the
      model returns for multiple items. */
  datatype Scalar = SText(s: string) | SInt(i: int) | SBool(b: bool) | SNull

  datatype Extracted = Text(s: string) | Items(elems: seq<Scalar>) | OtherValue

  type JsonLlm = string -> Option<map<string, Extracted>>

  /** A topic item as the extraction service reads it. */
  datatype TopicItem = TopicItem(itemName: string, itemType: string)

  /** What both extract methods return: the extraction (or `None`) and the
      page text (or ""). */
  datatype Extraction<T> = Extraction(value: Option<T>, fullText: string)

  const ModelEngine := "gpt-4o-mini"

  /** `int(get_prompt_limit('gpt-4o-mini'))`, that is `int(128000 * 1.5)`. */
  const PromptLimit := 192000

  /** The template `prompts_dict[kind]` names, if any. */
  function TemplateFor(kind: string): (r: Option<Template>)
    ensures r.Some? <==> kind in {"short summary", "medium summary", "long summary", "explain"}
    ensures kind == "explain" || kind == "medium summary" ==> r == Some(MediumSummary)
  {
    if kind == "short summary" then Some(ShortSummary)
    else if kind == "medium summary" || kind == "explain" then Some(MediumSummary)
    else if kind == "long summary" then Some(LongSummary)
    else None
  }

  /** The url `get_text` requests: an arXiv url has every "pdf" turned
      into "html", any other url is used as given. */
  function TargetUrl(url: string): (r: string)
    ensures !Occurs("arxiv.org", url) ==> r == url
    ensures !Occurs("pdf", url) ==> r == url
  {
    if Occurs("arxiv.org", url) then
      ReplaceAbsentWhenMissing(url);
      ReplaceAll(url, "pdf", "html")
    else url
  }

  lemma ReplaceAbsentWhenMissing(url: string)
    ensures !Occurs("pdf", url) ==> ReplaceAll(url, "pdf", "html") == url
  {
    if !Occurs("pdf", url) {
      ReplaceAbsent(url, "pdf", "html");
    }
  }

  /** An arXiv url asks for no PDF any more. */
  lemma ArxivUrlHasNoPdf(url: string)
    requires Occurs("arxiv.org", url)
    ensures !Occurs("pdf", TargetUrl(url))
  {
    ReplaceRemovesKey([], url, "pdf", "html");
    assert [] + ReplaceAll(url, "pdf", "html") == ReplaceAll(url, "pdf", "html");
  }

  /** `get_text`: the page text of the target url, "" when the request failed. */
  function GetText(url: string, fetch: Fetch): string
  {
    match fetch(TargetUrl(url))
    case Some(text) => text
    case None => ""
  }

  /** `text[:limit]`. */
  function Truncated(text: string): (r: string)
    ensures |r| <= PromptLimit && |r| <= |text| && r == text[..|r|]
    ensures |text| <= PromptLimit ==> r == text
    ensures |text| > PromptLimit ==> |r| == PromptLimit
  {
    if |text| <= PromptLimit then text else text[..PromptLimit]
  }

  /** `get_summary`: an unknown kind raises `KeyError`; otherwise the model
      sees at most `PromptLimit` characters of the text. */
  function GetSummary(text: string, kind: string, llm: Llm): (r: Result<Option<string>, string>)
    ensures r.Err? <==> TemplateFor(kind).None?
    ensures r.Ok? ==> r.value == llm(Summarize(TemplateFor(kind).value, Truncated(text)))
  {
    match TemplateFor(kind)
    case None => Err("KeyError")
    case Some(t) => Ok(llm(Summarize(t, Truncated(text))))
  }

  /** `extract_single_item_from_url`. */
  function ExtractSingle(url: string, itemType: string, returnFullText: bool, fetch: Fetch, llm: Llm)
    : Result<Extraction<string>, string>
  {
    var text := GetText(url, fetch);
    if |text| == 0 then Ok(Extraction(None, ""))
    else
      match GetSummary(text, itemType, llm)
      case Err(e) => Err(e)
      case Ok(summary) => Ok(Extraction(summary, if returnFullText then text else ""))
  }

  /** An empty page gives no summary and no text; otherwise the extraction
      raises exactly on an unknown kind and gives the model's answer to the
      kind's prompt over the truncated page. */
  lemma ExtractSingleAsks(url: string, itemType: string, returnFullText: bool, fetch: Fetch, llm: Llm)
    ensures var r := ExtractSingle(url, itemType, returnFullText, fetch, llm);
            (GetText(url, fetch) == "" ==> r == Ok(Extraction(None, ""))) &&
            (GetText(url, fetch) != "" ==> (r.Err? <==> TemplateFor(itemType).None?)) &&
            (r.Ok? && GetText(url, fetch) != "" ==>
               r.value.value == llm(Summarize(TemplateFor(itemType).value, Truncated(GetText(url, fetch))))) &&
            (r.Ok? ==> r.value.fullText == (if returnFullText then GetText(url, fetch) else ""))
  {
  }

  /** `extract_items`: the model gets the prompt built from the item names. */
  function ExtractItems(text: string, items: seq<TopicItem>, llm: JsonLlm): Option<map<string, Extracted>>
  {
    llm(GeneratePrompt(text, NamesOf(items)))
  }

  function NamesOf(items: seq<TopicItem>): (r: seq<string>)
    ensures |r| == |items| && forall i :: 0 <= i < |items| ==> r[i] == items[i].itemName
  {
    seq(|items|, i requires 0 <= i < |items| => items[i].itemName)
  }

  /** `extract_multiple_items_from_url`. */
  function ExtractMultiple(url: string, items: seq<TopicItem>, returnFullText: bool, fetch: Fetch, llm: JsonLlm)
    : Extraction<map<string, Extracted>>
  {
    var text := GetText(url, fetch);
    if |text| == 0 then Extraction(None, "")
    else Extraction(ExtractItems(text, items, llm), if returnFullText then text else "")
  }

  /** An empty page gives no object and no text; otherwise the object is the
      model's answer to the prompt built from the page and the item names. */
  lemma ExtractMultipleAsks(url: string, items: seq<TopicItem>, returnFullText: bool, fetch: Fetch, llm: JsonLlm)
    ensures var r := ExtractMultiple(url, items, returnFullText, fetch, llm);
            (GetText(url, fetch) == "" ==> r == Extraction(None, "")) &&
            (GetText(url, fetch) != "" ==>
               r.value == llm(GeneratePrompt(GetText(url, fetch), NamesOf(items))) &&
               r.fullText == (if returnFullText then GetText(url, fetch) else ""))
  {
  }

  // Prompt for multiple items

  function Bullets(names: seq<string>): (r: seq<string>)
    ensures |r| == |names| && forall i :: 0 <= i < |names| ==> r[i] == "- " + names[i]
  {
    seq(|names|, i requires 0 <= i < |names| => "- " + names[i])
  }

  function Entries(names: seq<string>): (r: seq<string>)
    ensures |r| == |names| && forall i :: 0 <= i < |names| ==> r[i] == "  \"" + names[i] + "\": \"...\""
  {
    seq(|names|, i requires 0 <= i < |names| => "  \"" + names[i] + "\": \"...\"")
  }

  /** The "- name" list of the prompt. */
  function TextItems(names: seq<string>): string
  {
    Join(Bullets(names), "\n")
  }

  /** The JSON template of the prompt. */
  function JsonStructure(names: seq<string>): string
  {
    "{\n" + Join(Entries(names), ",\n") + "\n}"
  }

  const PromptIntro := "Extract the following items from the given text and return them as a valid JSON object:\n    "

  /** `generate_prompt`: the instructions, the item list, the text and the
      JSON template, in that order. */
  function GeneratePrompt(text: string, names: seq<string>): string
  {
    PromptIntro + TextItems(names) + PromptBefore + text + PromptAfter + (JsonStructure(names) + "\n    ")
  }

  const PromptBefore := "\n\n    Text:\n    \"\"\"\n    "
  const PromptAfter := "\n    \"\"\"\n\n    Output JSON:\n    "

  /** The prompt starts with the instructions and the item list, ends with
      the JSON template, and holds the text. */
  lemma PromptFrames(text: string, names: seq<string>)
    ensures var r := GeneratePrompt(text, names);
            |PromptIntro + TextItems(names)| <= |r| && r[..|PromptIntro + TextItems(names)|] == PromptIntro + TextItems(names) &&
            |JsonStructure(names) + "\n    "| <= |r| &&
            r[|r| - |JsonStructure(names) + "\n    "|..] == JsonStructure(names) + "\n    " &&
            Occurs(text, r)
  {
    var lead := PromptIntro + TextItems(names);
    Framed(lead, PromptBefore, text, PromptAfter, JsonStructure(names) + "\n    ");
  }

  /** The pieces of `lead + before + text + after + last` can be read back
      at their places. */
  lemma Framed(lead: string, before: string, text: string, after: string, last: string)
    ensures var r := lead + before + text + after + last;
            |lead| <= |r| && r[..|lead|] == lead &&
            |last| <= |r| && r[|r| - |last|..] == last &&
            OccursAt(text, r, |lead + before|)
  {
    var r := lead + before + text + after + last;
    assert r == lead + (before + text + after + last);
    assert r == (lead + before + text + after) + last;
    assert r == (lead + before) + text + (after + last);
    assert r[|lead + before|..|lead + before| + |text|] == text;
  }

  /** Each item name gives exactly one "- name" line, in order. */
  lemma TextItemsLines(names: seq<string>)
    requires names != []
    requires forall i :: 0 <= i < |names| ==> '\n' !in names[i]
    ensures Split(TextItems(names), '\n') == Bullets(names)
  {
    var b := Bullets(names);
    forall i | 0 <= i < |b|
      ensures '\n' !in b[i]
    {
      assert b[i] == "- " + names[i];
    }
    SplitJoin(b, '\n');
  }

  /** The lines of the entries joined by ",\n": each entry but the last
      ends with a comma. */
  function CommaLines(entries: seq<string>): (r: seq<string>)
    ensures |r| == |entries|
    ensures forall i :: 0 <= i < |entries| ==> r[i] == entries[i] + (if i < |entries| - 1 then "," else "")
  {
    seq(|entries|, i requires 0 <= i < |entries| => entries[i] + (if i < |entries| - 1 then "," else ""))
  }

  lemma {:induction false} JoinComma(entries: seq<string>)
    ensures Join(entries, ",\n") == Join(CommaLines(entries), "\n")
  {
    if |entries| > 1 {
      JoinComma(entries[1..]);
      var c := CommaLines(entries);
      assert c[1..] == CommaLines(entries[1..]);
      assert Join(c, "\n") == c[0] + "\n" + Join(c[1..], "\n");
    }
  }

  lemma {:induction false} JoinAppend(a: seq<string>, b: seq<string>, sep: string)
    requires a != [] && b != []
    ensures Join(a + b, sep) == Join(a, sep) + sep + Join(b, sep)
  {
    if |a| > 1 {
      assert (a + b)[1..] == a[1..] + b;
      JoinAppend(a[1..], b, sep);
    } else {
      assert (a + b)[1..] == b;
    }
  }

  /** The JSON template is "{", one `"name": "..."` line per item (with a
      comma on all but the last), and "}". */
  lemma JsonStructureLines(names: seq<string>)
    requires names != []
    requires forall i :: 0 <= i < |names| ==> '\n' !in names[i]
    ensures Split(JsonStructure(names), '\n') == ["{"] + CommaLines(Entries(names)) + ["}"]
  {
    var lines := ["{"] + CommaLines(Entries(names)) + ["}"];
    JsonStructureJoin(names);
    JsonLinesFree(names);
    SplitJoin(lines, '\n');
  }

  /** The JSON template is its lines joined by newlines. */
  lemma JsonStructureJoin(names: seq<string>)
    requires names != []
    ensures Join(["{"] + CommaLines(Entries(names)) + ["}"], "\n") == JsonStructure(names)
  {
    var c := CommaLines(Entries(names));
    JoinComma(Entries(names));
    JoinAppend(["{"], c + ["}"], "\n");
    JoinAppend(c, ["}"], "\n");
    assert ["{"] + c + ["}"] == ["{"] + (c + ["}"]);
  }

  /** No line of the JSON template holds a newline. */
  lemma JsonLinesFree(names: seq<string>)
    requires forall i :: 0 <= i < |names| ==> '\n' !in names[i]
    ensures var lines := ["{"] + CommaLines(Entries(names)) + ["}"];
            forall i :: 0 <= i < |lines| ==> '\n' !in lines[i]
  {
    var lines := ["{"] + CommaLines(Entries(names)) + ["}"];
    forall i | 0 <= i < |lines|
      ensures '\n' !in lines[i]
    {
      if 0 < i < |lines| - 1 {
        assert lines[i] == "  \"" + names[i - 1] + "\": \"...\"" + (if i - 1 < |names| - 1 then "," else "");
      }
    }
  }

  // Splitting a long text and combining partial summaries

  /** `int(len / limit) + 1` pieces. */
  function ChunkCount(length: nat): (r: nat)
    ensures r >= 1 && (r - 1) * PromptLimit <= length < r * PromptLimit
  {
    length / PromptLimit + 1
  }

  /** `int(len / chunks)` characters per piece. */
  function PieceLength(length: nat): (r: nat)
    ensures r * ChunkCount(length) <= length < (r + 1) * ChunkCount(length)
  {
    length / ChunkCount(length)
  }

  /** `text[i*m:(i+1)*m]` for each piece index. */
  function Piece(text: string, i: nat): (r: string)
    requires i < ChunkCount(|text|)
    ensures |r| == PieceLength(|text|)
  {
    var m := PieceLength(|text|);
    PieceBound(|text|, i);
    text[i * m..(i + 1) * m]
  }

  lemma PieceBound(length: nat, i: nat)
    requires i < ChunkCount(length)
    ensures (i + 1) * PieceLength(length) <= ChunkCount(length) * PieceLength(length) <= length
  {
    var m := PieceLength(length);
    assert (i + 1) * m <= ChunkCount(length) * m by {
      MulMonotone(i + 1, ChunkCount(length), m);
    }
  }

  lemma MulMonotone(a: nat, b: nat, m: nat)
    requires a <= b
    ensures a * m <= b * m
  {
  }

  function Pieces(text: string): (r: seq<string>)
    ensures |r| == ChunkCount(|text|)
    ensures forall i :: 0 <= i < |r| ==> r[i] == Piece(text, i)
  {
    seq(ChunkCount(|text|), i requires 0 <= i < ChunkCount(|text|) => Piece(text, i))
  }

  function Concat(parts: seq<string>): string
  {
    if parts == [] then "" else Concat(parts[..|parts| - 1]) + parts[|parts| - 1]
  }

  /** The pieces, in order, spell the text up to `chunks * m`; fewer than
      `chunks` trailing characters are never sent. */
  lemma PiecesCoverPrefix(text: string)
    ensures Concat(Pieces(text)) == text[..ChunkCount(|text|) * PieceLength(|text|)]
    ensures |text| - ChunkCount(|text|) * PieceLength(|text|) < ChunkCount(|text|)
  {
    var p := Pieces(text);
    var m := PieceLength(|text|);
    PiecesPrefix(text, |p|);
    assert p[..|p|] == p;
  }

  lemma {:induction false} PiecesPrefix(text: string, k: nat)
    requires k <= ChunkCount(|text|)
    ensures k * PieceLength(|text|) <= |text|
    ensures Concat(Pieces(text)[..k]) == text[..k * PieceLength(|text|)]
  {
    var m := PieceLength(|text|);
    if k == 0 {
      assert Pieces(text)[..0] == [];
    } else {
      var a := (k - 1) * m;
      MulStep(k, m);
      PieceBound(|text|, k - 1);
      PiecesPrefix(text, k - 1);
      var p := Pieces(text)[..k];
      assert p[..k - 1] == Pieces(text)[..k - 1];
      assert Concat(p) == Concat(p[..k - 1]) + p[k - 1];
      assert p[k - 1] == text[a..a + m];
      SliceJoin(text, a, a + m);
    }
  }

  lemma MulStep(k: nat, m: nat)
    requires k > 0
    ensures k * m == (k - 1) * m + m
  {
  }

  lemma SliceJoin(s: string, a: nat, b: nat)
    requires a <= b <= |s|
    ensures s[..a] + s[a..b] == s[..b]
  {
  }

  /** The running summary: `None` as soon as one answer is `None`. */
  function Thread(acc: Option<string>, rest: seq<string>, llm: Llm): Option<string>
    decreases |rest|
  {
    if acc.None? then None
    else if rest == [] then acc
    else Thread(llm(Combine(acc.value, rest[0])), rest[1..], llm)
  }

  /** What `split_and_combine_summary` answers for a list of pieces. */
  function Combined(pieces: seq<string>, llm: Llm): Option<string>
    requires pieces != []
  {
    Thread(llm(Summarize(MediumSummary, pieces[0])), pieces[1..], llm)
  }

  /** One more piece threads through one more combine prompt. */
  lemma {:induction false} ThreadSnoc(acc: Option<string>, rest: seq<string>, x: string, llm: Llm)
    ensures Thread(acc, rest + [x], llm) ==
            (var t := Thread(acc, rest, llm); if t.None? then None else llm(Combine(t.value, x)))
    decreases |rest|
  {
    if acc.Some? {
      if rest == [] {
        assert Thread(llm(Combine(acc.value, x)), [], llm) == llm(Combine(acc.value, x));
      } else {
        assert (rest + [x])[1..] == rest[1..] + [x];
        ThreadSnoc(llm(Combine(acc.value, rest[0])), rest[1..], x, llm);
      }
    }
  }

  /** A combined answer is the model's answer for the last piece: the
      medium summary of the only piece, or the combine prompt holding the
      summary of all earlier pieces and the last piece. */
  lemma CombinedIsLastAnswer(pieces: seq<string>, llm: Llm, a: string)
    requires pieces != [] && Combined(pieces, llm) == Some(a)
    ensures |pieces| == 1 ==> llm(Summarize(MediumSummary, pieces[0])) == Some(a)
    ensures |pieces| > 1 ==>
              var before := Combined(pieces[..|pieces| - 1], llm);
              before.Some? && llm(Combine(before.value, pieces[|pieces| - 1])) == Some(a)
  {
    if |pieces| > 1 {
      var init := pieces[..|pieces| - 1];
      assert pieces[1..] == init[1..] + [pieces[|pieces| - 1]];
      ThreadSnoc(llm(Summarize(MediumSummary, pieces[0])), init[1..], pieces[|pieces| - 1], llm);
    }
  }

  /** A missing answer anywhere makes the whole summary missing. */
  lemma {:induction false} ThreadStopsAtNone(acc: Option<string>, rest: seq<string>, llm: Llm, k: nat)
    requires k < |rest| && acc.Some?
    requires Thread(acc, rest[..k], llm).Some?
    requires llm(Combine(Thread(acc, rest[..k], llm).value, rest[k])) == None
    ensures Thread(acc, rest, llm) == None
    decreases k
  {
    if k == 0 {
      assert rest[..0] == [];
      assert Thread(None, rest[1..], llm) == None;
    } else {
      var next := llm(Combine(acc.value, rest[0]));
      assert rest[..k][0] == rest[0];
      assert rest[..k][1..] == rest[1..][..k - 1];
      assert Thread(acc, rest[..k], llm) == Thread(next, rest[1..][..k - 1], llm);
      ThreadStopsAtNone(next, rest[1..], llm, k - 1);
    }
  }

  lemma ThreadOfNone(rest: seq<string>, llm: Llm)
    ensures Thread(None, rest, llm) == None
  {
  }

  /** `split_and_combine_summary`. */
  method SplitAndCombineSummary(text: string, llm: Llm) returns (answer: Option<string>)
    ensures answer == Combined(Pieces(text), llm)
  {
    var splitTexts: seq<string> := [];
    var chunks := |text| / PromptLimit + 1;
    var maxTokens := |text| / chunks;
    for i := 0 to chunks
      invariant |splitTexts| == i
      invariant forall j :: 0 <= j < i ==> splitTexts[j] == Piece(text, j)
    {
      PieceBound(|text|, i);
      splitTexts := splitTexts + [text[i * maxTokens..(i + 1) * maxTokens]];
    }
    assert splitTexts == Pieces(text);
    var subAnswer := llm(Summarize(MediumSummary, splitTexts[0]));
    if subAnswer.None? {
      return None;
    }
    var rest := splitTexts[1..];
    for k := 0 to |rest|
      invariant subAnswer.Some?
      invariant Thread(subAnswer, rest[k..], llm) == Combined(splitTexts, llm)
    {
      subAnswer := llm(Combine(subAnswer.value, rest[k]));
      assert rest[k..][1..] == rest[k + 1..];
      if subAnswer.None? {
        ThreadOfNone(rest[k + 1..], llm);
        return None;
      }
    }
    assert rest[|rest|..] == [];
    return subAnswer;
  }
}
