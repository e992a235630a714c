/** The backend's data layer (api/main_app.py, class `MainApp`): filters sent
    to MongoDB, the per-topic counts, topic updates, refresh tokens, users
    and journal entries.

    A MongoDB collection is a sequence of documents in stored order;
    `find(query)` returns the matching ones in that order and `update_one`
    changes the first match. A filter is a dictionary from field to
    condition, and its meaning is given by `Matches`. Case-insensitive
    regular-expression search is an oracle `TextMatch`. The clock, uuid4,
    bcrypt, SHA-256 and JWT are parameters. */
module MainApp {
  import opened Common

  /** A BSON value. */
  datatype Value = VNull | VBool(b: bool) | VInt(i: int) | VStr(s: string) | VList(elems: seq<Value>)
                 | VObj(members: seq<(string, Value)>)

  type Doc = map<string, Value>

  /** Python truthiness. */
  predicate Truthy(v: Value)
  {
    match v
    case VNull => false
    case VBool(b) => b
    case VInt(i) => i != 0
    case VStr(s) => s != ""
    case VList(e) => e != []
    case VObj(m) => m != []
  }

  /** A field as a query or `doc.get(key)` sees it: missing reads as null. */
  function Get(d: Doc, key: string): Value
  {
    if key in d then d[key] else VNull
  }

  /** One operator on one field. */
  datatype Atom = Eq(v: Value) | In(vs: seq<Value>) | Ne(v: Value) | Exists(present: bool) | Regex(pattern: string)

  /** A filter entry: an operator on its own key, or `$or` over field
      operators. */
  datatype Cond = Is(atom: Atom) | AnyOf(alternatives: seq<(string, Atom)>)

  type Filter = map<string, Cond>

  /** `{"$regex": pattern, "$options": "i"}` on a field path of a document. */
  type TextMatch = (Doc, string, string) -> bool

  predicate AtomHolds(d: Doc, key: string, a: Atom, rx: TextMatch)
  {
    match a
    case Eq(v) => Get(d, key) == v
    case In(vs) => Get(d, key) in vs
    case Ne(v) => Get(d, key) != v
    case Exists(present) => (key in d) == present
    case Regex(p) => rx(d, key, p)
  }

  predicate CondHolds(d: Doc, key: string, c: Cond, rx: TextMatch)
  {
    match c
    case Is(a) => AtomHolds(d, key, a, rx)
    case AnyOf(alts) => exists i :: 0 <= i < |alts| && AtomHolds(d, alts[i].0, alts[i].1, rx)
  }

  /** A document matches a filter when every entry holds. */
  predicate Matches(d: Doc, f: Filter, rx: TextMatch)
  {
    forall key :: key in f ==> CondHolds(d, key, f[key], rx)
  }

  /** `{"$or": [{"is_deleted": False}, {"is_deleted": {"$exists": False}}]}` */
  const NotDeletedClause: Cond := AnyOf([("is_deleted", Eq(VBool(false))), ("is_deleted", Exists(false))])

  /** What `NotDeletedClause` selects: no `is_deleted` field, or `false`. */
  predicate NotDeleted(d: Doc)
  {
    "is_deleted" in d ==> d["is_deleted"] == VBool(false)
  }

  lemma NotDeletedClauseMeaning(d: Doc, rx: TextMatch)
    ensures CondHolds(d, "$or", NotDeletedClause, rx) <==> NotDeleted(d)
  {
    if NotDeleted(d) {
      if "is_deleted" in d {
        assert AtomHolds(d, NotDeletedClause.alternatives[0].0, NotDeletedClause.alternatives[0].1, rx);
      } else {
        assert AtomHolds(d, NotDeletedClause.alternatives[1].0, NotDeletedClause.alternatives[1].1, rx);
      }
    }
  }

  /** `collection.find(query)`: the matching documents in stored order. */
  function Find(docs: seq<Doc>, f: Filter, rx: TextMatch): (r: seq<Doc>)
    ensures |r| <= |docs|
    ensures forall d :: d in r <==> d in docs && Matches(d, f, rx)
  {
    if docs == [] then []
    else (if Matches(docs[0], f, rx) then [docs[0]] else []) + Find(docs[1..], f, rx)
  }

  /** `searchText`: the filter, plus a regular-expression condition on
      `field` when a search text is given. */
  function SearchQuery(f: Filter, field: string, searchText: Option<string>): Filter
  {
    if searchText.Some? then f[field := Is(Regex(searchText.value))] else f
  }

  predicate SearchHit(d: Doc, field: string, searchText: Option<string>, rx: TextMatch)
  {
    searchText.None? || rx(d, field, searchText.value)
  }

  /** A one-entry filter holds exactly when its entry does. */
  lemma MatchesFirst(d: Doc, key: string, c: Cond, rx: TextMatch)
    ensures Matches(d, map[key := c], rx) <==> CondHolds(d, key, c, rx)
  {
    assert key in map[key := c];
  }

  /** Adding an entry for a new key adds its condition to the conjunction. */
  lemma MatchesAdd(d: Doc, f: Filter, key: string, c: Cond, rx: TextMatch)
    requires key !in f
    ensures Matches(d, f[key := c], rx) <==> Matches(d, f, rx) && CondHolds(d, key, c, rx)
  {
    var g := f[key := c];
    if Matches(d, f, rx) && CondHolds(d, key, c, rx) {
      forall k | k in g
        ensures CondHolds(d, k, g[k], rx)
      {
        if k != key {
          assert g[k] == f[k];
        }
      }
    }
    if Matches(d, g, rx) {
      forall k | k in f
        ensures CondHolds(d, k, f[k], rx)
      {
        assert g[k] == f[k];
      }
      assert CondHolds(d, key, g[key], rx);
    }
  }

  lemma SearchQueryMeaning(d: Doc, f: Filter, field: string, searchText: Option<string>, rx: TextMatch)
    requires field !in f
    ensures Matches(d, SearchQuery(f, field, searchText), rx) <==> Matches(d, f, rx) && SearchHit(d, field, searchText, rx)
  {
    if searchText.Some? {
      MatchesAdd(d, f, field, Is(Regex(searchText.value)), rx);
    }
  }

  /** `[x['id'] for x in topics]` */
  function Ids(docs: seq<Doc>): (r: seq<Value>)
    requires forall d :: d in docs ==> "id" in d
    ensures |r| == |docs|
    ensures forall i :: 0 <= i < |docs| ==> r[i] == docs[i]["id"]
    ensures forall v :: v in r <==> exists t :: t in docs && t["id"] == v
  {
    if docs == [] then [] else [docs[0]["id"]] + Ids(docs[1..])
  }

  /** The documents `get_items` wants: not deleted; of the given topic, or
      else of one of the user's topics; with the given mark; and, when
      asked, with a comments list that is not the empty list. A topic id
      given by the caller is not checked against the user. */
  predicate ItemWanted(d: Doc, topicId: Option<string>, topicIds: seq<Value>, isMarked: Option<bool>,
                       onlyWithComments: bool)
  {
    NotDeleted(d) &&
    (if topicId.Some? then Get(d, "topic_id") == VStr(topicId.value) else Get(d, "topic_id") in topicIds) &&
    (isMarked.Some? ==> Get(d, "is_marked") == VBool(isMarked.value)) &&
    (onlyWithComments ==> Get(d, "comments") != VList([]))
  }

  /** The topic of `d` is one of the user's topics that are not deleted. */
  predicate OfUserTopic(d: Doc, topics: seq<Doc>, user: string)
  {
    exists t :: t in topics && TopicWanted(t, "", user) && "id" in t && Get(d, "topic_id") == t["id"]
  }

  /** Some topic of the user that is not deleted has no `id`, so that
      `x['id']` raises `KeyError` while the ids are collected. */
  predicate UserTopicLacksId(topics: seq<Doc>, user: string)
  {
    exists t :: t in topics && TopicWanted(t, "", user) && "id" !in t
  }

  /** What `get_items` returns for a user, stated over the topics
      collection. */
  predicate ItemVisible(d: Doc, topics: seq<Doc>, user: string, topicId: Option<string>, isMarked: Option<bool>,
                        onlyWithComments: bool)
  {
    NotDeleted(d) &&
    (if topicId.Some? then Get(d, "topic_id") == VStr(topicId.value) else OfUserTopic(d, topics, user)) &&
    (isMarked.Some? ==> Get(d, "is_marked") == VBool(isMarked.value)) &&
    (onlyWithComments ==> Get(d, "comments") != VList([]))
  }

  /** The filter `get_items` builds, entry by entry. */
  method ItemsFilter(topicId: Option<string>, topicIds: seq<Value>, isMarked: Option<bool>, onlyWithComments: bool)
    returns (f: Filter)
    ensures "value" !in f
    ensures forall d: Doc, rx: TextMatch :: Matches(d, f, rx) <==> ItemWanted(d, topicId, topicIds, isMarked, onlyWithComments)
  {
    f := map["$or" := NotDeletedClause];
    ghost var f0 := f;
    if topicId.Some? {
      f := f["topic_id" := Is(Eq(VStr(topicId.value)))];
    } else {
      f := f["topic_id" := Is(In(topicIds))];
    }
    ghost var f1 := f;
    if isMarked.Some? {
      f := f["is_marked" := Is(Eq(VBool(isMarked.value)))];
    }
    ghost var f2 := f;
    if onlyWithComments {
      f := f["comments" := Is(Ne(VList([])))];
    }
    forall d: Doc, rx: TextMatch
      ensures Matches(d, f, rx) <==> ItemWanted(d, topicId, topicIds, isMarked, onlyWithComments)
    {
      NotDeletedClauseMeaning(d, rx);
      MatchesFirst(d, "$or", NotDeletedClause, rx);
      MatchesAdd(d, f0, "topic_id", f1["topic_id"], rx);
      if isMarked.Some? {
        MatchesAdd(d, f1, "is_marked", f2["is_marked"], rx);
      }
      if onlyWithComments {
        MatchesAdd(d, f2, "comments", f["comments"], rx);
      }
    }
  }


  /** What `get_multi_items` asks the database for: not deleted, of the
      given topic when one is given, with the given mark. */
  predicate MultiWanted(d: Doc, topicId: Option<string>, isMarked: Option<bool>)
  {
    NotDeleted(d) &&
    (topicId.Some? ==> Get(d, "topic_id") == VStr(topicId.value)) &&
    (isMarked.Some? ==> Get(d, "is_marked") == VBool(isMarked.value))
  }

  /** The filter `get_multi_items` builds. */
  method MultiFilter(topicId: Option<string>, isMarked: Option<bool>) returns (f: Filter)
    ensures "items.value" !in f
    ensures forall d: Doc, rx: TextMatch :: Matches(d, f, rx) <==> MultiWanted(d, topicId, isMarked)
  {
    f := map["$or" := NotDeletedClause];
    ghost var f0 := f;
    if topicId.Some? {
      f := f["topic_id" := Is(Eq(VStr(topicId.value)))];
    }
    ghost var f1 := f;
    if isMarked.Some? {
      f := f["is_marked" := Is(Eq(VBool(isMarked.value)))];
    }
    forall d: Doc, rx: TextMatch
      ensures Matches(d, f, rx) <==> MultiWanted(d, topicId, isMarked)
    {
      NotDeletedClauseMeaning(d, rx);
      MatchesFirst(d, "$or", NotDeletedClause, rx);
      if topicId.Some? {
        MatchesAdd(d, f0, "topic_id", f1["topic_id"], rx);
      }
      if isMarked.Some? {
        MatchesAdd(d, f1, "is_marked", f["is_marked"], rx);
      }
    }
  }


  /** What `get_topics_without_items` asks for: the user's topics that are
      not deleted, of the given type unless the type is "". */
  predicate TopicWanted(d: Doc, topicType: string, user: string)
  {
    NotDeleted(d) && (topicType != "" ==> Get(d, "topic_type") == VStr(topicType)) && Get(d, "user") == VStr(user)
  }

  method TopicsFilter(topicType: string, user: string) returns (f: Filter)
    ensures forall d: Doc, rx: TextMatch :: Matches(d, f, rx) <==> TopicWanted(d, topicType, user)
  {
    f := map["$or" := NotDeletedClause];
    ghost var f0 := f;
    if topicType != "" {
      f := f["topic_type" := Is(Eq(VStr(topicType)))];
    }
    ghost var f1 := f;
    f := f["user" := Is(Eq(VStr(user)))];
    forall d: Doc, rx: TextMatch
      ensures Matches(d, f, rx) <==> TopicWanted(d, topicType, user)
    {
      NotDeletedClauseMeaning(d, rx);
      MatchesFirst(d, "$or", NotDeletedClause, rx);
      if topicType != "" {
        MatchesAdd(d, f0, "topic_type", f1["topic_type"], rx);
      }
      MatchesAdd(d, f1, "user", f["user"], rx);
    }
  }


  /** The user's journal entries that are not deleted. */
  predicate JournalWanted(d: Doc, user: string)
  {
    NotDeleted(d) && Get(d, "user") == VStr(user)
  }

  method JournalsFilter(user: string) returns (f: Filter)
    ensures forall d: Doc, rx: TextMatch :: Matches(d, f, rx) <==> JournalWanted(d, user)
  {
    f := map["$or" := NotDeletedClause];
    ghost var f0 := f;
    f := f["user" := Is(Eq(VStr(user)))];
    forall d: Doc, rx: TextMatch
      ensures Matches(d, f, rx) <==> JournalWanted(d, user)
    {
      NotDeletedClauseMeaning(d, rx);
      MatchesFirst(d, "$or", NotDeletedClause, rx);
      MatchesAdd(d, f0, "user", f["user"], rx);
    }
  }


  /** `[x for x in result if x['topic_id'] in topics_ids]` */
  function InTopics(docs: seq<Doc>, ids: seq<Value>): (r: seq<Doc>)
    requires forall d :: d in docs ==> "topic_id" in d
    ensures |r| <= |docs|
    ensures forall d :: d in r <==> d in docs && d["topic_id"] in ids
  {
    if docs == [] then []
    else (if docs[0]["topic_id"] in ids then [docs[0]] else []) + InTopics(docs[1..], ids)
  }

  /** The `$match` stage of `get_topics`: the user's topics that are not
      deleted, whatever the topic type asked for. */
  function TopicsMatch(user: string): Filter
  {
    map["user" := Is(Eq(VStr(user))), "$or" := NotDeletedClause]
  }

  /** A `$lookup` of `docs` on `topic_id` against the topic's `id`. */
  function Joined(t: Doc, docs: seq<Doc>): (r: seq<Doc>)
    ensures |r| <= |docs|
  {
    if docs == [] then []
    else (if Get(docs[0], "topic_id") == Get(t, "id") then [docs[0]] else []) + Joined(t, docs[1..])
  }

  lemma {:induction false} JoinedMembers(t: Doc, docs: seq<Doc>, d: Doc)
    ensures d in Joined(t, docs) <==> d in docs && Get(d, "topic_id") == Get(t, "id")
  {
    if docs != [] {
      JoinedMembers(t, docs[1..], d);
      assert docs == [docs[0]] + docs[1..];
    }
  }

  /** The documents whose `key` field is truthy (`keep`) or falsy. */
  function Keep(docs: seq<Doc>, key: string, keep: bool): (r: seq<Doc>)
    ensures |r| <= |docs|
  {
    if docs == [] then []
    else (if Truthy(Get(docs[0], key)) == keep then [docs[0]] else []) + Keep(docs[1..], key, keep)
  }

  lemma {:induction false} KeepMembers(docs: seq<Doc>, key: string, keep: bool, d: Doc)
    ensures d in Keep(docs, key, keep) <==> d in docs && Truthy(Get(d, key)) == keep
  {
    if docs != [] {
      KeepMembers(docs[1..], key, keep, d);
      assert docs == [docs[0]] + docs[1..];
    }
  }

  /** One topic of `get_topics`: the topic without the joined arrays, plus
      the counts of its items that are not deleted, of those that are done,
      and of its multi items that are not deleted. */
  function TopicSummary(t: Doc, extraction: seq<Doc>, multi: seq<Doc>): (r: Doc)
  {
    var items := Keep(Joined(t, extraction), "is_deleted", false);
    var done := Keep(items, "done", true);
    var multiItems := Keep(Joined(t, multi), "is_deleted", false);
    (t - {"extracted_items", "extracted_multi_items"})["total_items" := VInt(|items|)]["done_items" := VInt(|done|)]
      ["total_multi_items" := VInt(|multiItems|)]
  }

  /** The summary drops the joined arrays, keeps every other field of the
      topic, and its counts are bounded: done items never exceed the items
      counted, which never exceed the collection. */
  lemma TopicSummaryShape(t: Doc, extraction: seq<Doc>, multi: seq<Doc>)
    ensures var r := TopicSummary(t, extraction, multi);
            "extracted_items" !in r && "extracted_multi_items" !in r &&
            r.Keys == t.Keys - {"extracted_items", "extracted_multi_items"} + {"total_items", "done_items", "total_multi_items"} &&
            (forall k :: k in t && k !in {"extracted_items", "extracted_multi_items", "total_items", "done_items", "total_multi_items"} ==> r[k] == t[k]) &&
            r["total_items"].VInt? && r["done_items"].VInt? && r["total_multi_items"].VInt? &&
            0 <= r["done_items"].i <= r["total_items"].i <= |extraction| &&
            0 <= r["total_multi_items"].i <= |multi| &&
            r["total_items"].i == |Keep(Joined(t, extraction), "is_deleted", false)| &&
            r["done_items"].i == |Keep(Keep(Joined(t, extraction), "is_deleted", false), "done", true)|
  {
  }

  /** A counted item is exactly a joined item that is not deleted, and a
      done item is one of those that is also done. */
  lemma CountedItems(t: Doc, extraction: seq<Doc>, d: Doc)
    ensures d in Keep(Joined(t, extraction), "is_deleted", false) <==>
              d in extraction && Get(d, "topic_id") == Get(t, "id") && !Truthy(Get(d, "is_deleted"))
    ensures d in Keep(Keep(Joined(t, extraction), "is_deleted", false), "done", true) <==>
              d in extraction && Get(d, "topic_id") == Get(t, "id") && !Truthy(Get(d, "is_deleted")) && Truthy(Get(d, "done"))
  {
    JoinedMembers(t, extraction, d);
    KeepMembers(Joined(t, extraction), "is_deleted", false, d);
    KeepMembers(Keep(Joined(t, extraction), "is_deleted", false), "done", true, d);
  }

  /** The first index in `docs` whose `key` equals `v`, or `|docs|`. */
  function FirstWith(docs: seq<Doc>, key: string, v: Value): (i: nat)
    ensures i <= |docs|
    ensures i < |docs| ==> Get(docs[i], key) == v
    ensures forall j :: 0 <= j < i ==> Get(docs[j], key) != v
  {
    FirstIndex(docs, (d: Doc) => Get(d, key) == v)
  }

  /** `update_one({key: v}, {"$set": update})`. */
  function SetFirst(docs: seq<Doc>, key: string, v: Value, update: Doc): (r: seq<Doc>)
    ensures |r| == |docs|
    ensures var i := FirstWith(docs, key, v);
            forall j :: 0 <= j < |docs| ==> r[j] == (if j == i then docs[j] + update else docs[j])
  {
    var i := FirstWith(docs, key, v);
    if i < |docs| then docs[i := docs[i] + update] else docs
  }

  /** A stored user. */
  datatype User = User(username: string, password: string)

  /** A stored refresh token: only its hash is kept. */
  datatype TokenEntry = TokenEntry(hash: string, username: string, expiresOn: int)

  datatype TokenPair = TokenPair(accessToken: string, tokenType: string, refreshToken: string)

  const RefreshTokenLifetime: int := 7 * 86400

  /** The first user with that name, or `|users|`. */
  function FirstUser(users: seq<User>, username: string): (i: nat)
    ensures i <= |users|
    ensures i < |users| ==> users[i].username == username
    ensures forall j :: 0 <= j < i ==> users[j].username != username
  {
    FirstIndex(users, (u: User) => u.username == username)
  }

  /** The first stored entry with that hash, or `|tokens|`. */
  function FirstToken(tokens: seq<TokenEntry>, hash: string): (i: nat)
    ensures i <= |tokens|
    ensures i < |tokens| ==> tokens[i].hash == hash
    ensures forall j :: 0 <= j < i ==> tokens[j].hash != hash
  {
    FirstIndex(tokens, (t: TokenEntry) => t.hash == hash)
  }

  /** `validate_refresh_token`: the owner of the first entry with the
      token's hash, when that entry has not expired. */
  function ValidateResult(tokens: seq<TokenEntry>, hashOf: string -> string, raw: string, now: int)
    : (r: Option<string>)
    ensures r.Some? <==> FirstToken(tokens, hashOf(raw)) < |tokens| && tokens[FirstToken(tokens, hashOf(raw))].expiresOn > now
    ensures r.Some? ==> exists e :: e in tokens && e.hash == hashOf(raw) && e.username == r.value && e.expiresOn > now
  {
    var i := FirstToken(tokens, hashOf(raw));
    if i < |tokens| && tokens[i].expiresOn > now then Some(tokens[i].username) else None
  }

  /** The entry `create_refresh_token` stores for a new raw token. */
  function NewTokenEntry(hashOf: string -> string, username: string, raw: string, now: int): (e: TokenEntry)
    ensures e.hash == hashOf(raw) && e.username == username && e.expiresOn == now + RefreshTokenLifetime
  {
    TokenEntry(hashOf(raw), username, now + RefreshTokenLifetime)
  }

  /** A token created at `issued` validates to its user for seven days and
      not afterwards, provided no earlier entry has the same hash. */
  lemma {:induction false} RefreshTokenRoundTrip(tokens: seq<TokenEntry>, hashOf: string -> string, username: string,
                                                 raw: string, issued: int, now: int)
    requires forall e :: e in tokens ==> e.hash != hashOf(raw)
    ensures ValidateResult(tokens + [NewTokenEntry(hashOf, username, raw, issued)], hashOf, raw, now) ==
            (if now < issued + RefreshTokenLifetime then Some(username) else None)
  {
    var all := tokens + [NewTokenEntry(hashOf, username, raw, issued)];
    assert forall j :: 0 <= j < |tokens| ==> all[j] == tokens[j];
    assert all[|tokens|].hash == hashOf(raw);
  }

  /** A journal entry as `insert_journal` stores it. */
  function JournalDoc(id: string, user: string, text: string, now: int): (d: Doc)
    ensures Get(d, "created_on") == Get(d, "modified_on") == VInt(now)
    ensures Get(d, "is_deleted") == VBool(false) && NotDeleted(d)
    ensures Get(d, "id") == VStr(id) && Get(d, "user") == VStr(user) && Get(d, "transcript") == VStr(text)
    ensures JournalWanted(d, user)
  {
    map["id" := VStr(id), "user" := VStr(user), "transcript" := VStr(text), "created_on" := VInt(now),
        "modified_on" := VInt(now), "is_deleted" := VBool(false)]
  }

  /** The fields `update_topic` can set. */
  const TopicFields: set<string> := {"modified_on", "frequency", "items", "last_extraction_epoch", "topic_name", "topic_type"}

  /** `params` holds exactly the fields `update_topic` sets: each argument
      that is not `None`, and always `modified_on`. */
  predicate SetsFields(params: Doc, frequency: Option<Value>, items: Option<Value>, lastExtractionEpoch: Option<int>,
                       topicName: Option<Value>, topicType: Option<Value>, now: int)
  {
    params.Keys <= TopicFields &&
    "modified_on" in params && params["modified_on"] == VInt(now) &&
    ("frequency" in params <==> frequency.Some?) &&
    ("items" in params <==> items.Some?) &&
    ("last_extraction_epoch" in params <==> lastExtractionEpoch.Some?) &&
    ("topic_name" in params <==> topicName.Some?) &&
    ("topic_type" in params <==> topicType.Some?) &&
    (frequency.Some? ==> params["frequency"] == frequency.value) &&
    (items.Some? ==> params["items"] == items.value) &&
    (lastExtractionEpoch.Some? ==> params["last_extraction_epoch"] == VInt(lastExtractionEpoch.value)) &&
    (topicName.Some? ==> params["topic_name"] == topicName.value) &&
    (topicType.Some? ==> params["topic_type"] == topicType.value)
  }

  /** A topic after `update_topic`: the given fields take the new values,
      `modified_on` the current time, and every other field is kept. */
  predicate UpdatedTopic(before: Doc, after: Doc, frequency: Option<Value>, items: Option<Value>,
                         lastExtractionEpoch: Option<int>, topicName: Option<Value>, topicType: Option<Value>, now: int)
  {
    Get(after, "modified_on") == VInt(now) &&
    Get(after, "frequency") == (if frequency.Some? then frequency.value else Get(before, "frequency")) &&
    Get(after, "items") == (if items.Some? then items.value else Get(before, "items")) &&
    Get(after, "last_extraction_epoch") ==
      (if lastExtractionEpoch.Some? then VInt(lastExtractionEpoch.value) else Get(before, "last_extraction_epoch")) &&
    Get(after, "topic_name") == (if topicName.Some? then topicName.value else Get(before, "topic_name")) &&
    Get(after, "topic_type") == (if topicType.Some? then topicType.value else Get(before, "topic_type")) &&
    (forall k :: k in before && k !in TopicFields ==> k in after && after[k] == before[k])
  }

  /** `$set` with the fields `update_topic` builds updates the topic as
      described. */
  lemma SetTopicFields(before: Doc, params: Doc, frequency: Option<Value>, items: Option<Value>,
                       lastExtractionEpoch: Option<int>, topicName: Option<Value>, topicType: Option<Value>, now: int)
    requires SetsFields(params, frequency, items, lastExtractionEpoch, topicName, topicType, now)
    ensures UpdatedTopic(before, before + params, frequency, items, lastExtractionEpoch, topicName, topicType, now)
  {
    var after := before + params;
    forall k | k in before && k !in TopicFields
      ensures k in after && after[k] == before[k]
    {
      assert k !in params;
    }
  }

  /** The fields `update_topic` sets, built one by one. */
  method TopicUpdate(frequency: Option<Value>, items: Option<Value>, lastExtractionEpoch: Option<int>,
                     topicName: Option<Value>, topicType: Option<Value>, now: int) returns (params: Doc)
    ensures SetsFields(params, frequency, items, lastExtractionEpoch, topicName, topicType, now)
  {
    params := map[];
    if frequency.Some? {
      params := params["frequency" := frequency.value];
    }
    if items.Some? {
      params := params["items" := items.value];
    }
    if lastExtractionEpoch.Some? {
      params := params["last_extraction_epoch" := VInt(lastExtractionEpoch.value)];
    }
    if topicName.Some? {
      params := params["topic_name" := topicName.value];
    }
    if topicType.Some? {
      params := params["topic_type" := topicType.value];
    }
    params := params["modified_on" := VInt(now)];
  }

  /** The backend over its collections and the shared file that tells the
      extractor service when topics last changed. */
  class Backend {
    const rx: TextMatch
    const hashOf: string -> string
    const verify: (string, string) -> bool
    var extraction: seq<Doc>
    var multi: seq<Doc>
    var topics: seq<Doc>
    var journals: seq<Doc>
    var users: seq<User>
    var tokens: seq<TokenEntry>
    var lastTopicsChange: Option<int>

    constructor(rx: TextMatch, hashOf: string -> string, verify: (string, string) -> bool)
      ensures this.rx == rx && this.hashOf == hashOf && this.verify == verify
      ensures extraction == multi == topics == journals == [] && users == [] && tokens == []
      ensures lastTopicsChange.None?
    {
      this.rx, this.hashOf, this.verify := rx, hashOf, verify;
      extraction, multi, topics, journals, users, tokens := [], [], [], [], [], [];
      lastTopicsChange := None;
    }

    /** `get_topics_without_items(topic_type, user)` */
    method GetTopicsWithoutItems(topicType: string, user: string) returns (result: seq<Doc>)
      ensures user == "" ==> result == []
      ensures user != "" ==> forall d :: d in result <==> d in topics && TopicWanted(d, topicType, user)
    {
      if user == "" {
        return [];
      }
      var f := TopicsFilter(topicType, user);
      result := Find(topics, f, rx);
    }

    /** `get_items(user, search_term, topic_id, is_marked, only_with_comments)`:
        `Err("id")` is the `KeyError` raised when, without a topic id, one
        of the user's topics has no `id`. */
    method GetItems(user: string, searchTerm: Option<string>, topicId: Option<string>, isMarked: Option<bool>,
                    onlyWithComments: bool) returns (result: Result<seq<Doc>, string>)
      ensures user == "" ==> result == Ok([])
      ensures result.Err? <==> user != "" && topicId.None? && UserTopicLacksId(topics, user)
      ensures result.Err? ==> result.error == "id"
      ensures user != "" && result.Ok? ==>
                forall d :: d in result.value <==>
                  d in extraction && ItemVisible(d, topics, user, topicId, isMarked, onlyWithComments) &&
                  SearchHit(d, "value", searchTerm, rx)
      ensures result.Ok? ==> |result.value| <= |extraction|
    {
      if user == "" {
        return Ok([]);
      }
      var ids: seq<Value> := [];
      if topicId.None? {
        var userTopics := GetTopicsWithoutItems("", user);
        if exists t :: t in userTopics && "id" !in t {
          return Err("id");
        }
        ids := Ids(userTopics);
      }
      var f := ItemsFilter(topicId, ids, isMarked, onlyWithComments);
      var found := Find(extraction, SearchQuery(f, "value", searchTerm), rx);
      forall d
        ensures d in found <==> d in extraction && ItemVisible(d, topics, user, topicId, isMarked, onlyWithComments) &&
                                SearchHit(d, "value", searchTerm, rx)
      {
        SearchQueryMeaning(d, f, "value", searchTerm, rx);
      }
      result := Ok(found);
    }

    /** `get_multi_items(user, search_term, topic_id, is_marked)`: without a
        topic id the database is asked for every user's items, and the
        result is then cut down to the user's topics. Without a topic id,
        `Err(key)` is the `KeyError` raised first: `"id"` when one of the
        user's topics has no `id`, else `"topic_id"` when one of the found
        items has no `topic_id`. */
    method GetMultiItems(user: string, searchTerm: Option<string>, topicId: Option<string>, isMarked: Option<bool>)
      returns (result: Result<seq<Doc>, string>)
      ensures user == "" ==> result == Ok([])
      ensures result.Err? <==>
                user != "" && topicId.None? &&
                (UserTopicLacksId(topics, user) ||
                 exists d :: d in multi && MultiWanted(d, topicId, isMarked) &&
                             SearchHit(d, "items.value", searchTerm, rx) && "topic_id" !in d)
      ensures result.Err? ==> result.error == if UserTopicLacksId(topics, user) then "id" else "topic_id"
      ensures user != "" && result.Ok? ==>
                forall d :: d in result.value <==>
                  d in multi && MultiWanted(d, topicId, isMarked) && SearchHit(d, "items.value", searchTerm, rx) &&
                  (topicId.None? ==> OfUserTopic(d, topics, user))
    {
      if user == "" {
        return Ok([]);
      }
      var f := MultiFilter(topicId, isMarked);
      var found := Find(multi, SearchQuery(f, "items.value", searchTerm), rx);
      forall d
        ensures d in found <==> d in multi && MultiWanted(d, topicId, isMarked) && SearchHit(d, "items.value", searchTerm, rx)
      {
        SearchQueryMeaning(d, f, "items.value", searchTerm, rx);
      }
      if topicId.None? {
        var userTopics := GetTopicsWithoutItems("", user);
        if exists t :: t in userTopics && "id" !in t {
          return Err("id");
        }
        if exists x :: x in found && "topic_id" !in x {
          return Err("topic_id");
        }
        return Ok(InTopics(found, Ids(userTopics)));
      }
      return Ok(found);
    }

    /** `get_journals(user)` */
    method GetJournals(user: string) returns (result: seq<Doc>)
      ensures user == "" ==> result == []
      ensures user != "" ==> forall d :: d in result <==> d in journals && JournalWanted(d, user)
    {
      if user == "" {
        return [];
      }
      var f := JournalsFilter(user);
      result := Find(journals, f, rx);
    }

    /** `get_topics(topic_type, user)`: one summary per matched topic, in
        order. */
    method GetTopics(topicType: string, user: string) returns (result: seq<Doc>)
      ensures var matched := Find(topics, TopicsMatch(user), rx);
              |result| == |matched| &&
              forall i :: 0 <= i < |matched| ==> result[i] == TopicSummary(matched[i], extraction, multi)
    {
      var matched := Find(topics, TopicsMatch(user), rx);
      result := [];
      for i := 0 to |matched|
        invariant |result| == i
        invariant forall j :: 0 <= j < i ==> result[j] == TopicSummary(matched[j], extraction, multi)
      {
        var summary := TopicSummary(matched[i], extraction, multi);
        result := result + [summary];
      }
    }

    /** `update_topic(...)`: the first topic with that id gets the set
        fields, and the shared file records the change. `written` says
        whether `write_last_time_topics_changed` could write that file;
        when it could not, the error is caught and nothing is recorded. */
    method UpdateTopic(id: string, frequency: Option<Value>, items: Option<Value>, lastExtractionEpoch: Option<int>,
                       topicName: Option<Value>, topicType: Option<Value>, now: int, written: bool)
      modifies this
      ensures var i := FirstWith(old(topics), "id", VStr(id));
              |topics| == |old(topics)| &&
              (forall j :: 0 <= j < |topics| && j != i ==> topics[j] == old(topics)[j]) &&
              (i < |topics| ==>
                 UpdatedTopic(old(topics)[i], topics[i], frequency, items, lastExtractionEpoch, topicName, topicType, now))
      ensures lastTopicsChange == if written then Some(now) else old(lastTopicsChange)
      ensures extraction == old(extraction) && multi == old(multi) && journals == old(journals)
      ensures users == old(users) && tokens == old(tokens)
    {
      var params := TopicUpdate(frequency, items, lastExtractionEpoch, topicName, topicType, now);
      ghost var i := FirstWith(topics, "id", VStr(id));
      topics := SetFirst(topics, "id", VStr(id), params);
      if i < |topics| {
        SetTopicFields(old(topics)[i], params, frequency, items, lastExtractionEpoch, topicName, topicType, now);
      }
      if written {
        lastTopicsChange := Some(now);
      }
    }

    /** `authenticate_user(username, password)`: the first user with that
        name, when the password verifies against its stored hash. */
    method AuthenticateUser(username: string, password: string) returns (user: Option<User>)
      ensures user.Some? ==> user.value in users && user.value.username == username && verify(password, user.value.password)
      ensures user.None? <==> FirstUser(users, username) == |users| || !verify(password, users[FirstUser(users, username)].password)
    {
      var i := FirstUser(users, username);
      if i == |users| || !verify(password, users[i].password) {
        return None;
      }
      return Some(users[i]);
    }

    /** `create_refresh_token(username)` with `raw` the new random token. */
    method CreateRefreshToken(username: string, raw: string, now: int) returns (token: string)
      modifies this
      ensures token == raw
      ensures tokens == old(tokens) + [NewTokenEntry(hashOf, username, raw, now)]
      ensures extraction == old(extraction) && multi == old(multi) && topics == old(topics)
      ensures journals == old(journals) && users == old(users) && lastTopicsChange == old(lastTopicsChange)
    {
      tokens := tokens + [NewTokenEntry(hashOf, username, raw, now)];
      return raw;
    }

    /** `validate_refresh_token(raw)` */
    method ValidateRefreshToken(raw: string, now: int) returns (username: Option<string>)
      ensures username == ValidateResult(tokens, hashOf, raw, now)
    {
      var i := FirstToken(tokens, hashOf(raw));
      if i < |tokens| && tokens[i].expiresOn > now {
        return Some(tokens[i].username);
      }
      return None;
    }

    /** `update_password(username, password)`: `hashed` is the new bcrypt
        hash, `access` the new JWT and `raw` the new refresh token. An
        unknown user gets `{}` and nothing is written. */
    method UpdatePassword(username: string, hashed: string, access: string, raw: string, now: int)
      returns (pair: Option<TokenPair>)
      modifies this
      ensures var i := FirstUser(old(users), username);
              (i == |old(users)| ==> pair.None? && users == old(users) && tokens == old(tokens)) &&
              (i < |old(users)| ==> pair == Some(TokenPair(access, "bearer", raw)) &&
                                    users == old(users)[i := User(username, hashed)] &&
                                    tokens == old(tokens) + [NewTokenEntry(hashOf, username, raw, now)])
      ensures extraction == old(extraction) && multi == old(multi) && topics == old(topics) && journals == old(journals)
      ensures lastTopicsChange == old(lastTopicsChange)
    {
      var i := FirstUser(users, username);
      if i == |users| {
        return None;
      }
      users := users[i := users[i].(password := hashed)];
      var token := CreateRefreshToken(username, raw, now);
      return Some(TokenPair(access, "bearer", token));
    }

    /** `insert_journal(user, text)` with `id` the new uuid. */
    method InsertJournal(user: string, text: string, id: string, now: int) returns (journalId: string)
      modifies this
      ensures journalId == id
      ensures journals == old(journals) + [JournalDoc(id, user, text, now)]
      ensures extraction == old(extraction) && multi == old(multi) && topics == old(topics)
      ensures users == old(users) && tokens == old(tokens) && lastTopicsChange == old(lastTopicsChange)
    {
      journals := journals + [JournalDoc(id, user, text, now)];
      return id;
    }

    /** `speech_to_text(user, audio)`: `transcript` is what the speech
        service returned, `None` when it raised. An empty or failed
        transcript gives an empty id and stores nothing. */
    method SpeechToText(user: string, transcript: Option<string>, id: string, now: int)
      returns (journalId: string, text: string)
      requires id != ""
      modifies this
      ensures journalId == "" <==> transcript.None? || transcript.value == ""
      ensures journalId == "" ==> text == "" && journals == old(journals)
      ensures journalId != "" ==> text == transcript.value && journalId == id &&
                                  journals == old(journals) + [JournalDoc(id, user, text, now)]
      ensures extraction == old(extraction) && multi == old(multi) && topics == old(topics)
      ensures users == old(users) && tokens == old(tokens) && lastTopicsChange == old(lastTopicsChange)
    {
      if transcript.None? || transcript.value == "" {
        return "", "";
      }
      journalId := InsertJournal(user, transcript.value, id, now);
      text := transcript.value;
    }
  }
}
