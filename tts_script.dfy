/** The one-off speech script (temp_TTS_script.py): the abbreviation
    expansion of its text-to-speech client, and the main loop that finds the
    recent items whose audio file is missing from the bucket, synthesizes
    their speech and uploads the file.

    The speech engine, the file system, the bucket listing and the API are
    arguments: which syntheses raise, which files exist afterwards, the keys
    listed under the prefix "All", and the items the API gives per topic. */
module TtsScript {
  import opened Common

  /** One entry of the abbreviation table: the letters as written and as
      they are to be spoken. */
  datatype Abbreviation = Abbreviation(written: string, spoken: string)

  /** The table in its insertion order, which is the order the loop
      applies it in. */
  const Abbreviations: seq<Abbreviation> := [
    Abbreviation("AI", "A.I."),
    Abbreviation("SDK", "S.D.K"),
    Abbreviation("DNS", "D.N.S"),
    Abbreviation("TCP", "T.C.P"),
    Abbreviation("UDP", "U.D.P"),
    Abbreviation("LLM", "L.L.M."),
    Abbreviation("GPT", "G.P.T")
  ]

  /** Items created at or before this instant are left alone. */
  const CreatedCutoff := 1742570087
  const FolderName := "mp3_files"
  const BucketPrefix := "All"

  /** The text after the first `n` replacements of the table. */
  function ExpandFirst(text: string, n: nat): string
    requires n <= |Abbreviations|
  {
    if n == 0 then text
    else ReplaceAll(ExpandFirst(text, n - 1), Abbreviations[n - 1].written, Abbreviations[n - 1].spoken)
  }

  /** `preprocess_text`: every abbreviation of the table replaced, one
      entry after the other. */
  function Preprocess(text: string): string
  {
    ExpandFirst(text, |Abbreviations|)
  }

  /** `preprocess_text` as the client runs it, reassigning `text` once per
      entry of the table. */
  method PreprocessText(text0: string) returns (text: string)
    ensures text == Preprocess(text0)
  {
    text := text0;
    for n := 0 to |Abbreviations|
      invariant text == ExpandFirst(text0, n)
    {
      var entry := Abbreviations[n];
      text := ReplaceAll(text, entry.written, entry.spoken);
    }
  }

  /** A spoken form: letters at the even positions, a dot at every odd one,
      so that any two neighbouring characters include a dot. */
  predicate Dotted(r: string)
  {
    |r| >= 2 && forall j :: 0 <= j < |r| ==> (r[j] == '.' <==> j % 2 == 1)
  }

  /** A written form: two letters or more and no dot. */
  predicate Plain(w: string)
  {
    |w| >= 2 && '.' !in w
  }

  /** A word without a dot that is a prefix of the replaced text, and does
      not end in the first letter of the spoken form, is a prefix of the
      original: it cannot reach past that first letter into a spoken form. */
  lemma {:induction false} PlainPrefix(t: string, key: string, repl: string, w: string)
    requires key != [] && Dotted(repl)
    requires '.' !in w && (w == [] || w[|w| - 1] != repl[0])
    ensures var out := ReplaceAll(t, key, repl);
            |w| <= |out| && out[..|w|] == w ==> |w| <= |t| && t[..|w|] == w
    decreases |t|
  {
    var out := ReplaceAll(t, key, repl);
    if |t| >= |key| && w != [] {
      if t[..|key|] == key {
        assert out == repl + ReplaceAll(t[|key|..], key, repl);
        if |w| >= 2 {
          assert out[1] == '.';
          assert w[1] in w;
        } else {
          assert out[0] == repl[0];
        }
      } else {
        var rest := ReplaceAll(t[1..], key, repl);
        assert out == [t[0]] + rest;
        NoDotInTail(w);
        PlainPrefix(t[1..], key, repl, w[1..]);
        if |w| <= |out| && out[..|w|] == w {
          assert w[1..] == rest[..|w| - 1];
          assert t[..|w|] == [t[0]] + t[1..][..|w| - 1];
        }
      }
    }
  }

  lemma NoDotInTail(w: string)
    requires w != [] && '.' !in w
    ensures '.' !in w[1..]
  {
    forall m | 0 <= m < |w[1..]|
      ensures w[1..][m] != '.'
    {
      assert w[1..][m] == w[m + 1] && w[m + 1] in w;
    }
  }

  /** A suffix of a text without `p` has no `p` either. */
  lemma NotInSuffix(p: string, s: string, d: nat)
    requires d <= |s| && !Occurs(p, s)
    ensures !Occurs(p, s[d..])
  {
    forall i | 0 <= i <= |s[d..]| - |p|
      ensures !OccursAt(p, s[d..], i)
    {
      assert s[d..][i..i + |p|] == s[i + d..i + d + |p|];
      assert !OccursAt(p, s, i + d);
    }
  }

  /** Replacing `key` by a dotted spoken form leaves no occurrence of a
      plain word `o` that does not end in the spoken form's first letter,
      when `o` is the key itself or did not occur before. The one way left
      for `o` to appear is to start with the spoken form's last letter; that
      is ruled out when `o` does not start with it, or when `o` is another
      word and the key ends in that letter too, so that `o` was already
      there. */
  lemma {:induction false} ReplaceLeavesNo(s: string, key: string, repl: string, o: string)
    requires key != [] && Dotted(repl) && Plain(o)
    requires o[|o| - 1] != repl[0]
    requires o == key || !Occurs(o, s)
    requires o[0] != repl[|repl| - 1] || (o != key && key[|key| - 1] == repl[|repl| - 1])
    ensures !Occurs(o, ReplaceAll(s, key, repl))
    decreases |s|
  {
    if |s| < |key| {
      assert ReplaceAll(s, key, repl) == s;
    } else if s[..|key|] == key {
      var rest := s[|key|..];
      if o != key {
        NotInSuffix(o, s, |key|);
        assert !OccursAt(o, s, |key| - 1);
      }
      ReplaceLeavesNo(rest, key, repl, o);
      var tail := ReplaceAll(rest, key, repl);
      NoDotInTail(o);
      PlainPrefix(rest, key, repl, o[1..]);
      NoneAfterMatch(s, key, repl, o, tail);
      assert ReplaceAll(s, key, repl) == repl + tail;
    } else {
      if o != key {
        NotInSuffix(o, s, 1);
      }
      var rest := s[1..];
      ReplaceLeavesNo(rest, key, repl, o);
      var tail := ReplaceAll(rest, key, repl);
      NoDotInTail(o);
      PlainPrefix(rest, key, repl, o[1..]);
      assert !OccursAt(o, [s[0]] + rest, 0) by {
        assert s == [s[0]] + rest;
      }
      ConsClear(s[0], rest, tail, o);
      assert ReplaceAll(s, key, repl) == [s[0]] + tail;
    }
  }

  /** The step of `ReplaceLeavesNo` where the text starts with the key and
      the rest of the text becomes `tail`. */
  lemma NoneAfterMatch(s: string, key: string, repl: string, o: string, tail: string)
    requires key != [] && Dotted(repl) && Plain(o)
    requires o[|o| - 1] != repl[0]
    requires o[0] != repl[|repl| - 1] || (key[|key| - 1] == repl[|repl| - 1] && !OccursAt(o, s, |key| - 1))
    requires |key| <= |s| && s[..|key|] == key
    requires !Occurs(o, tail)
    requires |o| - 1 <= |tail| && tail[..|o| - 1] == o[1..] ==> |o| - 1 <= |s| - |key| && s[|key|..][..|o| - 1] == o[1..]
    ensures !Occurs(o, repl + tail)
  {
    var rest := s[|key|..];
    var c := key[|key| - 1];
    assert s[|key| - 1..] == [c] + rest by {
      assert s[|key| - 1] == s[..|key|][|key| - 1];
    }
    OccursAtSuffix(o, s, |key| - 1);
    ReplClear(repl, c, rest, tail, o);
  }

  /** An occurrence at `d` is one at the start of the suffix from `d`. */
  lemma OccursAtSuffix(p: string, s: string, d: nat)
    requires d <= |s|
    ensures OccursAt(p, s, d) <==> OccursAt(p, s[d..], 0)
  {
    if d + |p| <= |s| {
      assert s[d..][..|p|] == s[d..d + |p|];
    }
  }

  /** No `o` in a spoken form followed by text without `o`, when `o` cannot
      start with the spoken form's last letter or, starting with it, would
      have been found after `c` in the original. */
  lemma ReplClear(repl: string, c: char, rest: string, tail: string, o: string)
    requires Dotted(repl) && Plain(o) && o[|o| - 1] != repl[0]
    requires !Occurs(o, tail)
    requires |o| - 1 <= |tail| && tail[..|o| - 1] == o[1..] ==> |o| - 1 <= |rest| && rest[..|o| - 1] == o[1..]
    requires o[0] != repl[|repl| - 1] || (c == repl[|repl| - 1] && !OccursAt(o, [c] + rest, 0))
    ensures !Occurs(o, repl + tail)
  {
    var out := repl + tail;
    forall i | 0 <= i <= |out| - |o|
      ensures !OccursAt(o, out, i)
    {
      if i >= |repl| {
        assert out[i..i + |o|] == tail[i - |repl|..i - |repl| + |o|];
        assert !OccursAt(o, tail, i - |repl|);
      } else if i + 1 < |repl| {
        var j := if repl[i] == '.' then i else i + 1;
        assert out[i..i + |o|][j - i] == repl[j] == '.';
        assert o[j - i] in o;
      } else if o[0] != repl[|repl| - 1] {
        assert out[i..i + |o|][0] == repl[|repl| - 1];
      } else {
        assert out[i..i + |o|] == [repl[|repl| - 1]] + tail[..|o| - 1];
        if |o| - 1 <= |rest| {
          assert ([c] + rest)[..|o|] == [c] + rest[..|o| - 1];
        }
      }
    }
  }

  /** No `o` in a character followed by text without `o`, when `o` after
      that character would have been found in the original. */
  lemma ConsClear(c: char, rest: string, tail: string, o: string)
    requires o != [] && !Occurs(o, tail)
    requires |o| - 1 <= |tail| && tail[..|o| - 1] == o[1..] ==> |o| - 1 <= |rest| && rest[..|o| - 1] == o[1..]
    requires !OccursAt(o, [c] + rest, 0)
    ensures !Occurs(o, [c] + tail)
  {
    var out := [c] + tail;
    forall i | 0 <= i <= |out| - |o|
      ensures !OccursAt(o, out, i)
    {
      if i > 0 {
        assert out[i..i + |o|] == tail[i - 1..i - 1 + |o|];
        assert !OccursAt(o, tail, i - 1);
      } else {
        assert out[..|o|] == [c] + tail[..|o| - 1];
        if |o| - 1 <= |rest| {
          assert ([c] + rest)[..|o|] == [c] + rest[..|o| - 1];
        }
      }
    }
  }

  /** Every spoken form of the table is dotted and every written form
      plain. */
  lemma TableShape()
    ensures forall i | 0 <= i < |Abbreviations| :: Dotted(Abbreviations[i].spoken) && Plain(Abbreviations[i].written)
  {
  }

  /** Replacing entry `j` cannot bring back the written form `o` of an
      entry `i <= j`: `o` does not end in the spoken form's first letter,
      and either does not start with its last letter or is another word
      whose key ends in that letter too. */
  predicate Compatible(o: string, key: string, repl: string)
    requires o != [] && key != [] && repl != []
  {
    o[|o| - 1] != repl[0] && (o[0] != repl[|repl| - 1] || (o != key && key[|key| - 1] == repl[|repl| - 1]))
  }

  lemma TableCompatible()
    ensures forall i, j | 0 <= i <= j < |Abbreviations| ::
      Compatible(Abbreviations[i].written, Abbreviations[j].written, Abbreviations[j].spoken)
  {
  }

  /** After the first `n` replacements none of their written forms is left
      in the text: a later replacement never brings back an earlier one. */
  lemma {:induction false} ClearedAfter(text: string, n: nat)
    requires n <= |Abbreviations|
    ensures forall i | 0 <= i < n :: !Occurs(Abbreviations[i].written, ExpandFirst(text, n))
  {
    if n > 0 {
      ClearedAfter(text, n - 1);
      TableShape();
      TableCompatible();
      var entry := Abbreviations[n - 1];
      var before := ExpandFirst(text, n - 1);
      assert ExpandFirst(text, n) == ReplaceAll(before, entry.written, entry.spoken);
      assert Dotted(entry.spoken) && Plain(entry.written);
      forall i | 0 <= i < n
        ensures !Occurs(Abbreviations[i].written, ReplaceAll(before, entry.written, entry.spoken))
      {
        var o := Abbreviations[i].written;
        assert Plain(o) && Compatible(o, entry.written, entry.spoken);
        assert o == entry.written || !Occurs(o, before);
        ReplaceLeavesNo(before, entry.written, entry.spoken, o);
      }
    }
  }

  /** `preprocess_text` leaves none of the abbreviations of its table. */
  lemma PreprocessClears(text: string)
    ensures forall a | a in Abbreviations :: !Occurs(a.written, Preprocess(text))
  {
    ClearedAfter(text, |Abbreviations|);
  }

  /** A text without any of the abbreviations goes through the first `n`
      replacements unchanged. */
  lemma {:induction false} ExpandAbsent(text: string, n: nat)
    requires n <= |Abbreviations|
    requires forall a | a in Abbreviations :: !Occurs(a.written, text)
    ensures ExpandFirst(text, n) == text
  {
    if n > 0 {
      ExpandAbsent(text, n - 1);
      ReplaceAbsent(text, Abbreviations[n - 1].written, Abbreviations[n - 1].spoken);
    }
  }

  /** `preprocess_text` changes a text if and only if it holds one of the
      abbreviations. */
  lemma PreprocessUnchanged(text: string)
    ensures Preprocess(text) == text <==> forall a | a in Abbreviations :: !Occurs(a.written, text)
  {
    PreprocessClears(text);
    if forall a | a in Abbreviations :: !Occurs(a.written, text) {
      ExpandAbsent(text, |Abbreviations|);
    }
  }

  /** Running `preprocess_text` twice is running it once. */
  lemma PreprocessIdempotent(text: string)
    ensures Preprocess(Preprocess(text)) == Preprocess(text)
  {
    PreprocessClears(text);
    ExpandAbsent(Preprocess(text), |Abbreviations|);
  }

  /** `text_to_speech(text, output_path)` as written: the text given to the
      engine is the script's global `text_for_tts`, preprocessed; the
      `text` argument is never read. */
  function SpeechInputAsWritten(text: string, scriptText: string): string
  {
    Preprocess(scriptText)
  }

  /** `text_to_speech` reading its own argument, as its signature intends. */
  function SpeechInput(text: string): string
  {
    Preprocess(text)
  }

  /** Called with any text other than the global's current value, the
      client as written speaks the global instead: here the argument "x"
      with the global still empty. */
  lemma AsWrittenIgnoresArgument()
    ensures SpeechInputAsWritten("x", "") != SpeechInput("x")
  {
    PreprocessUnchanged("x");
    PreprocessUnchanged("");
    assert forall a | a in Abbreviations :: |a.written| >= 2;
  }

  /** The script's own call passes the global as the argument, so there the
      two agree, and what is spoken has no abbreviation of the table left. */
  lemma ScriptCallAgrees(text: string)
    ensures SpeechInputAsWritten(text, text) == SpeechInput(text)
    ensures forall a | a in Abbreviations :: !Occurs(a.written, SpeechInput(text))
  {
    PreprocessClears(text);
  }

  /** A topic as the script reads it from `all_topics`. */
  datatype Topic = Topic(id: string, user: string)

  /** An item as the script reads it from `items`. */
  datatype Item = Item(audioName: string, title: string, value: string, createdOn: int)

  /** The `items` endpoint for a topic id and user: `None` when the client
      gives no list back. */
  type ItemsOf = (string, string) -> Option<seq<Item>>

  /** The list comprehension keeping the items created after the cutoff,
      in their order. */
  function Recent(items: seq<Item>): (r: seq<Item>)
    ensures forall x :: x in r <==> x in items && x.createdOn > CreatedCutoff
    ensures |r| <= |items|
  {
    if items == [] then []
    else
      var rest := Recent(items[..|items| - 1]);
      var last := items[|items| - 1];
      assert items == items[..|items| - 1] + [last];
      if last.createdOn > CreatedCutoff then rest + [last] else rest
  }

  /** `all_items` after the loop over the topics: `None` when the list of
      some topic is missing, since iterating over it raises and ends the
      script. */
  function AllRecent(topics: seq<Topic>, itemsOf: ItemsOf): Option<seq<Item>>
  {
    if topics == [] then Some([])
    else match AllRecent(topics[..|topics| - 1], itemsOf)
      case None => None
      case Some(before) =>
        var t := topics[|topics| - 1];
        match itemsOf(t.id, t.user)
        case None => None
        case Some(items) => Some(before + Recent(items))
  }

  /** The script collects exactly the recent items of every topic, and
      stops if and only if some topic has no list. */
  lemma {:induction false} AllRecentMembers(topics: seq<Topic>, itemsOf: ItemsOf)
    ensures AllRecent(topics, itemsOf).None? <==> exists k | 0 <= k < |topics| :: itemsOf(topics[k].id, topics[k].user).None?
    ensures AllRecent(topics, itemsOf).Some? ==>
      forall x :: x in AllRecent(topics, itemsOf).value <==>
        exists k | 0 <= k < |topics| :: x in itemsOf(topics[k].id, topics[k].user).value && x.createdOn > CreatedCutoff
  {
    if topics != [] {
      var init := topics[..|topics| - 1];
      var t := topics[|topics| - 1];
      AllRecentMembers(init, itemsOf);
      assert forall k | 0 <= k < |init| :: init[k] == topics[k];
      if AllRecent(topics, itemsOf).Some? {
        var before := AllRecent(init, itemsOf).value;
        var items := itemsOf(t.id, t.user).value;
        forall x
          ensures x in AllRecent(topics, itemsOf).value <==>
            exists k | 0 <= k < |topics| :: x in itemsOf(topics[k].id, topics[k].user).value && x.createdOn > CreatedCutoff
        {
          if x in items && x.createdOn > CreatedCutoff {
            assert x in itemsOf(topics[|topics| - 1].id, topics[|topics| - 1].user).value;
          }
        }
      }
    }
  }

  /** A missing list ends the collection whatever comes after it. */
  lemma {:induction false} AllRecentStops(topics: seq<Topic>, itemsOf: ItemsOf, k: nat)
    requires k <= |topics| && AllRecent(topics[..k], itemsOf).None?
    ensures AllRecent(topics, itemsOf).None?
    decreases |topics| - k
  {
    if k < |topics| {
      assert topics[..k + 1][..k] == topics[..k];
      AllRecentStops(topics, itemsOf, k + 1);
    } else {
      assert topics[..k] == topics;
    }
  }

  /** The loop of the script building `all_items`. */
  method CollectRecent(topics: seq<Topic>, itemsOf: ItemsOf) returns (all: Option<seq<Item>>)
    ensures all == AllRecent(topics, itemsOf)
  {
    var acc: seq<Item> := [];
    for k := 0 to |topics|
      invariant AllRecent(topics[..k], itemsOf) == Some(acc)
    {
      assert topics[..k + 1][..k] == topics[..k];
      var got := itemsOf(topics[k].id, topics[k].user);
      if got.None? {
        AllRecentStops(topics, itemsOf, k + 1);
        return None;
      }
      acc := acc + Recent(got.value);
    }
    assert topics[..|topics|] == topics;
    all := Some(acc);
  }

  /** `file_names`: the last path segment of every key listed under the
      prefix. */
  function FileNames(keys: seq<string>): seq<string>
  {
    seq(|keys|, i requires 0 <= i < |keys| => AfterLast(keys[i], '/'))
  }

  /** The key an audio file is uploaded under. */
  function BucketKey(audioName: string): string
  {
    BucketPrefix + "/" + audioName
  }

  /** POSIX `os.path.join(a, b)`: an absolute `b` replaces `a`. */
  function JoinPath(a: string, b: string): string
  {
    if b != [] && b[0] == '/' then b
    else if a == [] || a[|a| - 1] == '/' then a + b
    else a + "/" + b
  }

  /** Where the speech of an item is written. */
  function AudioPath(audioName: string): string
  {
    JoinPath(FolderName, audioName)
  }

  /** Two items with different audio names never share a local file. */
  lemma AudioPathInjective(a: string, b: string)
    ensures AudioPath(a) == AudioPath(b) ==> a == b
  {
    var folder := FolderName + "/";
    if a != [] && a[0] == '/' && !(b != [] && b[0] == '/') {
      assert AudioPath(b)[0] == 'm';
    } else if b != [] && b[0] == '/' && !(a != [] && a[0] == '/') {
      assert AudioPath(a)[0] == 'm';
    } else if !(a != [] && a[0] == '/') && AudioPath(a) == AudioPath(b) {
      assert a == AudioPath(a)[|folder|..];
    }
  }

  /** An uploaded file is listed by the next run under its own name, when
      the name has no slash, so that run does not synthesize it again. */
  lemma UploadedIsListed(keys: seq<string>, audioName: string)
    requires '/' !in audioName && BucketKey(audioName) in keys
    ensures audioName in FileNames(keys)
  {
    var k :| 0 <= k < |keys| && keys[k] == BucketKey(audioName);
    AfterLastSlash(BucketPrefix, audioName);
    assert FileNames(keys)[k] == audioName;
  }

  /** The last segment of `a/b` is `b` when `b` has no slash. */
  lemma {:induction false} AfterLastSlash(a: string, b: string)
    requires '/' !in b
    ensures AfterLast(a + "/" + b, '/') == b
  {
    var s := a + "/" + b;
    if b != [] {
      var init := b[..|b| - 1];
      assert '/' !in init by {
        forall m | 0 <= m < |init|
          ensures init[m] != '/'
        {
          assert init[m] == b[m] && b[m] in b;
        }
      }
      AfterLastSlash(a, init);
      assert s[..|s| - 1] == a + "/" + init;
      assert s[|s| - 1] == b[|b| - 1] && b[|b| - 1] in b;
      assert init + [b[|b| - 1]] == b;
    }
  }

  /** What the script asks of the speech engine and the bucket. */
  datatype Call = Synthesize(path: string, text: string) | Upload(path: string, key: string)

  /** The handling of one item: nothing when its audio is listed; else the
      speech of its title and summary is synthesized to its path, and
      uploaded under its key when the engine did not raise and the file
      exists afterwards. A failed upload is reported and the loop goes on. */
  function ItemCalls(x: Item, names: seq<string>, raises: (string, string) -> bool, present: string -> bool): seq<Call>
  {
    if x.audioName in names then []
    else
      var path := AudioPath(x.audioName);
      var spoken := SpeechInput(SpeechText(x));
      [Synthesize(path, spoken)] + (if raises(path, spoken) || !present(path) then [] else [Upload(path, BucketKey(x.audioName))])
  }

  /** The text the script hands to the client for an item. */
  function SpeechText(x: Item): string
  {
    "Title: \n " + x.title + " \n" + "Summary: \n " + x.value + " \n"
  }

  /** The calls of the loop over `all_items`, item after item. */
  function Plan(items: seq<Item>, names: seq<string>, raises: (string, string) -> bool, present: string -> bool): seq<Call>
  {
    if items == [] then []
    else Plan(items[..|items| - 1], names, raises, present) + ItemCalls(items[|items| - 1], names, raises, present)
  }

  /** A call is made if and only if it is the synthesis of an unlisted
      item's speech to its path, or that item's upload under its key after
      the engine did not raise and the file exists. */
  lemma {:induction false} PlanMembers(items: seq<Item>, names: seq<string>, raises: (string, string) -> bool, present: string -> bool, c: Call)
    ensures c in Plan(items, names, raises, present) <==>
      exists x | x in items :: x.audioName !in names &&
        (c == Synthesize(AudioPath(x.audioName), SpeechInput(SpeechText(x))) ||
         (c == Upload(AudioPath(x.audioName), BucketKey(x.audioName)) &&
          !raises(AudioPath(x.audioName), SpeechInput(SpeechText(x))) && present(AudioPath(x.audioName))))
  {
    var calls := Plan(items, names, raises, present);
    if items != [] {
      var init := items[..|items| - 1];
      var last := items[|items| - 1];
      PlanMembers(init, names, raises, present, c);
      assert calls == Plan(init, names, raises, present) + ItemCalls(last, names, raises, present);
      if c in ItemCalls(last, names, raises, present) {
        assert last in items;
      }
      forall x | x in items
        ensures x in init || x == last
      {
        var m :| 0 <= m < |items| && items[m] == x;
        if m < |items| - 1 {
          assert init[m] == x;
        }
      }
      forall x | x in init
        ensures x in items
      {
        var m :| 0 <= m < |init| && init[m] == x;
        assert items[m] == x;
      }
    }
  }

  /** Every upload comes right after the synthesis of the same file. */
  predicate UploadsAfterSynthesis(calls: seq<Call>)
  {
    forall i | 0 <= i < |calls| && calls[i].Upload? :: i > 0 && calls[i - 1].Synthesize? && calls[i - 1].path == calls[i].path
  }

  /** The script uploads a file only right after synthesizing it. */
  lemma {:induction false} UploadFollowsSynthesis(items: seq<Item>, names: seq<string>, raises: (string, string) -> bool, present: string -> bool)
    ensures UploadsAfterSynthesis(Plan(items, names, raises, present))
  {
    if items != [] {
      var pre := Plan(items[..|items| - 1], names, raises, present);
      var last := ItemCalls(items[|items| - 1], names, raises, present);
      UploadFollowsSynthesis(items[..|items| - 1], names, raises, present);
      var calls := pre + last;
      forall i | 0 <= i < |calls| && calls[i].Upload?
        ensures i > 0 && calls[i - 1].Synthesize? && calls[i - 1].path == calls[i].path
      {
        if i < |pre| {
          assert calls[i] == pre[i] && pre[i].Upload?;
          assert calls[i - 1] == pre[i - 1];
        } else {
          assert calls[i] == last[i - |pre|];
          assert last != [] && last[0].Synthesize? && forall m | 0 < m < |last| :: m == 1 && last[m].path == last[0].path;
          assert calls[i - 1] == last[0];
        }
      }
    }
  }

  /** No speech synthesized by the script holds an abbreviation of the
      table. */
  lemma SpokenWithoutAbbreviations(items: seq<Item>, names: seq<string>, raises: (string, string) -> bool, present: string -> bool, c: Call)
    requires c in Plan(items, names, raises, present) && c.Synthesize?
    ensures forall a | a in Abbreviations :: !Occurs(a.written, c.text)
  {
    PlanMembers(items, names, raises, present, c);
    var x :| x in items && x.audioName !in names &&
      (c == Synthesize(AudioPath(x.audioName), SpeechInput(SpeechText(x))) ||
       (c == Upload(AudioPath(x.audioName), BucketKey(x.audioName)) &&
        !raises(AudioPath(x.audioName), SpeechInput(SpeechText(x))) && present(AudioPath(x.audioName))));
    PreprocessClears(SpeechText(x));
  }

  /** The loop over `all_items`, with the listed names fixed before it. */
  method UploadMissing(items: seq<Item>, names: seq<string>, raises: (string, string) -> bool, present: string -> bool)
    returns (calls: seq<Call>)
    ensures calls == Plan(items, names, raises, present)
  {
    calls := [];
    for k := 0 to |items|
      invariant calls == Plan(items[..k], names, raises, present)
    {
      assert items[..k + 1][..k] == items[..k];
      var x := items[k];
      if x.audioName !in names {
        var path := AudioPath(x.audioName);
        var spoken := SpeechInput(SpeechText(x));
        calls := calls + [Synthesize(path, spoken)];
        if !raises(path, spoken) && present(path) {
          calls := calls + [Upload(path, BucketKey(x.audioName))];
        }
      }
    }
    assert items[..|items|] == items;
  }

  /** How a run ends: the script raised while collecting items, the bucket
      listing had no contents, or the loop ran and made these calls. */
  datatype Outcome = Crashed | NoFiles | Ran(calls: seq<Call>)

  /** The `__main__` block: collect the recent items, list the bucket under
      the prefix, and synthesize and upload the audio of every item whose
      file is not listed. */
  method RunScript(topics: Option<seq<Topic>>, itemsOf: ItemsOf, listing: Option<seq<string>>,
                   raises: (string, string) -> bool, present: string -> bool) returns (o: Outcome)
    ensures o.Crashed? <==> topics.None? || AllRecent(topics.value, itemsOf).None?
    ensures o.NoFiles? <==> !o.Crashed? && listing.None?
    ensures o.Ran? ==> o.calls == Plan(AllRecent(topics.value, itemsOf).value, FileNames(listing.value), raises, present)
  {
    if topics.None? {
      return Crashed;
    }
    var all := CollectRecent(topics.value, itemsOf);
    if all.None? {
      return Crashed;
    }
    if listing.None? {
      return NoFiles;
    }
    var calls := UploadMissing(all.value, FileNames(listing.value), raises, present);
    o := Ran(calls);
  }
}
