// The topic form of the mobile app: adding and editing the items of a
// topic, and validating the form into the payload sent by `update_topic`
// (edit) or `insert_topic` (create).

module AddEditTopicScreen {
  import opened Common

  /** A value held in one field of a topic item: the text inputs and
      pickers store strings, the default item stores the number 1. */
  datatype FieldValue = Text(s: string) | Number(n: int)

  /** A topic item is a JS object with string keys. */
  type Item = map<string, FieldValue>

  /** Which of the two "In order to" buttons is selected. */
  datatype Mode = Summary | Extraction

  /** The topic passed to the screen when editing. An empty string stands
      for a missing or empty field (both falsy for `||`). */
  datatype TopicDoc = TopicDoc(id: string, topicName: string, topicType: string,
                               frequency: string, items: Option<seq<Item>>,
                               isMultiItem: bool)

  /** The two payload shapes: an edit carries the topic's id, a create
      carries the user and the multi-item flag. */
  datatype Payload =
    | Edit(id: string, topicName: string, topicType: string, frequency: string,
           items: seq<Item>)
    | Create(user: string, topicName: string, topicType: string, frequency: string,
             items: seq<Item>, isMultiItem: bool)

  /** What pressing SAVE did: rejected with an alert before any request,
      or sent one payload; `saved` is what the save call answered and
      `alert` the message shown on success. */
  datatype SaveOutcome =
    | Rejected(message: string)
    | Sent(payload: Payload, saved: bool, alert: Option<string>)

  const FirstFrequency := "hourly"
  const FirstSummaryType := "short summary"
  const EmptyNameMessage := "Topic name cannot be empty"
  const NoItemsMessage := "You need to add at least one item for extraction"
  const UpdatedMessage := "Topic is updated"
  const CreatedMessage := "You are All set up!!! Wait for up to 5 min at check View Items of the Topic for extractions."

  /** The item `+ Add` appends. */
  function DefaultItem(): (r: Item)
    ensures "item_name" !in r
    ensures r.Keys == {"value_type", "num_values", "item_type"}
  {
    map["value_type" := Text("text"), "num_values" := Number(1), "item_type" := Text("extract info")]
  }

  /** The single item sent in summary mode. */
  function SummaryItem(summaryType: string): (r: Item)
    ensures "item_name" in r && r["item_name"] == Text(summaryType)
    ensures "item_type" in r && r["item_type"] == Text(summaryType)
  {
    map["value_type" := Text("text"), "num_values" := Number(1),
        "item_type" := Text(summaryType), "item_name" := Text(summaryType)]
  }

  /** `handleAddItem`: the items with one default item appended. */
  function WithDefaultItem(items: seq<Item>): (r: seq<Item>)
    ensures |r| == |items| + 1
    ensures r[..|items|] == items && r[|items|] == DefaultItem()
  {
    items + [DefaultItem()]
  }

  /** `handleItemChange`: an empty string changes nothing; otherwise only
      `key` of the item at `index` takes `value` (an index outside the
      list matches no item). */
  function ItemsChanged(items: seq<Item>, index: int, key: string, value: FieldValue): (r: seq<Item>)
    ensures |r| == |items|
    ensures value == Text("") ==> r == items
    ensures forall i :: 0 <= i < |items| && i != index ==> r[i] == items[i]
    ensures value != Text("") && 0 <= index < |items| ==>
              key in r[index] && r[index][key] == value &&
              r[index].Keys == items[index].Keys + {key} &&
              forall k :: k in items[index] && k != key ==> r[index][k] == items[index][k]
  {
    if value == Text("") then items
    else seq(|items|, i requires 0 <= i < |items| => if i == index then items[i][key := value] else items[i])
  }

  /** `items.filter(item => "item_name" in item)`. */
  function WithItemName(items: seq<Item>): (r: seq<Item>)
    ensures |r| <= |items|
    ensures forall x :: x in r <==> x in items && "item_name" in x
  {
    if items == [] then []
    else (if "item_name" in items[0] then [items[0]] else []) + WithItemName(items[1..])
  }

  /** Filtering distributes over concatenation, so filtering keeps order. */
  lemma {:induction false} WithItemNameAppend(a: seq<Item>, b: seq<Item>)
    ensures WithItemName(a + b) == WithItemName(a) + WithItemName(b)
  {
    if a == [] {
      assert a + b == b;
    } else {
      assert (a + b)[1..] == a[1..] + b;
      WithItemNameAppend(a[1..], b);
    }
  }

  /** Filtering twice is filtering once. */
  lemma {:induction false} WithItemNameIdempotent(items: seq<Item>)
    ensures WithItemName(WithItemName(items)) == WithItemName(items)
  {
    if items != [] {
      var head := if "item_name" in items[0] then [items[0]] else [];
      WithItemNameIdempotent(items[1..]);
      WithItemNameAppend(head, WithItemName(items[1..]));
      if "item_name" in items[0] {
        assert WithItemName(head) == head by {
          assert head[1..] == [];
        }
      }
    }
  }

  /** A freshly added item has no name, so it is never sent in
      extraction mode until a name is typed into it. */
  lemma AddedItemIsNotSent(items: seq<Item>)
    ensures WithItemName(WithDefaultItem(items)) == WithItemName(items)
  {
    WithItemNameAppend(items, [DefaultItem()]);
    assert WithItemName([DefaultItem()]) == [] by {
      assert [DefaultItem()][1..] == [];
    }
  }

  /** Adding an item and typing a non-empty name into it makes the
      extraction list non-empty, so the form is no longer rejected for
      lack of items. */
  lemma NamingAddedItemEnablesSave(items: seq<Item>, name: string)
    requires name != ""
    ensures var after := ItemsChanged(WithDefaultItem(items), |items|, "item_name", Text(name));
            WithItemName(after) != [] && after[|items|] in WithItemName(after)
  {
    var after := ItemsChanged(WithDefaultItem(items), |items|, "item_name", Text(name));
    assert "item_name" in after[|items|];
    assert after[|items|] in after;
  }

  /** A later change to the same key of the same item overrides an earlier one. */
  lemma LastChangeWins(items: seq<Item>, index: int, key: string, v: FieldValue, w: FieldValue)
    requires w != Text("")
    ensures ItemsChanged(ItemsChanged(items, index, key, v), index, key, w) == ItemsChanged(items, index, key, w)
  {
    var once := ItemsChanged(items, index, key, v);
    var twice := ItemsChanged(once, index, key, w);
    var direct := ItemsChanged(items, index, key, w);
    forall i | 0 <= i < |items|
      ensures twice[i] == direct[i]
    {
      if i == index {
        assert twice[i] == once[i][key := w];
      }
    }
  }

  /** The frequency a payload carries: web topics run once. */
  function SentFrequency(topicType: string, frequency: string): (r: string)
    ensures topicType == "web" ==> r == "once"
    ensures topicType != "web" ==> r == frequency
  {
    if topicType == "web" then "once" else frequency
  }

  /** The state of the form. `topic` is the edited topic, absent when
      creating one; `username` comes from the user context. */
  class Form {
    const topic: Option<TopicDoc>
    const username: string
    var topicName: string
    var topicType: string
    var frequency: string
    var items: seq<Item>
    var mode: Mode
    var summaryType: string

    /** The initial state: the edited topic's fields, with `||` falling
        back on the defaults for the falsy ones. */
    constructor(topic: Option<TopicDoc>, username: string)
      ensures this.topic == topic && this.username == username
      ensures topic.None? ==> topicName == "" && topicType == "web" && frequency == FirstFrequency &&
                              items == [] && mode == Summary
      ensures topic.Some? ==>
                topicName == topic.value.topicName &&
                topicType == (if topic.value.topicType == "" then "web" else topic.value.topicType) &&
                frequency == (if topic.value.frequency == "" then FirstFrequency else topic.value.frequency) &&
                items == (if topic.value.items.Some? then topic.value.items.value else []) &&
                (mode == Extraction <==> topic.value.isMultiItem)
      ensures summaryType == FirstSummaryType
    {
      this.topic := topic;
      this.username := username;
      match topic {
        case None =>
          topicName, topicType, frequency, items, mode := "", "web", FirstFrequency, [], Summary;
        case Some(t) =>
          topicName := t.topicName;
          topicType := if t.topicType == "" then "web" else t.topicType;
          frequency := if t.frequency == "" then FirstFrequency else t.frequency;
          items := if t.items.Some? then t.items.value else [];
          mode := if t.isMultiItem then Extraction else Summary;
      }
      summaryType := FirstSummaryType;
    }

    /** `handleAddItem`. */
    method AddItem()
      modifies this
      ensures items == WithDefaultItem(old(items))
      ensures topicName == old(topicName) && topicType == old(topicType) && frequency == old(frequency)
      ensures mode == old(mode) && summaryType == old(summaryType)
    {
      items := items + [DefaultItem()];
    }

    /** `handleItemChange`. */
    method ChangeItem(index: int, key: string, value: FieldValue)
      modifies this
      ensures items == ItemsChanged(old(items), index, key, value)
      ensures topicName == old(topicName) && topicType == old(topicType) && frequency == old(frequency)
      ensures mode == old(mode) && summaryType == old(summaryType)
    {
      if value != Text("") {
        items := ItemsChanged(items, index, key, value);
      }
    }

    /** `saveTopic`. `store` answers the `update_topic` / `insert_topic`
        call for a payload (false also when the call threw). */
    method SaveTopic(store: Payload -> bool) returns (outcome: SaveOutcome)
      ensures topicName == "" <==> outcome == Rejected(EmptyNameMessage)
      ensures outcome == Rejected(NoItemsMessage) <==>
                topicName != "" && mode == Extraction && WithItemName(items) == []
      ensures outcome.Rejected? ==> outcome.message in {EmptyNameMessage, NoItemsMessage}
      ensures outcome.Sent? ==>
                var p := outcome.payload;
                p.topicName == topicName && p.topicType == topicType &&
                p.frequency == SentFrequency(topicType, frequency) &&
                p.items == (if mode == Summary then [SummaryItem(summaryType)] else WithItemName(items)) &&
                (mode == Extraction ==> p.items != []) &&
                (p.Edit? <==> topic.Some?) &&
                (p.Edit? ==> p.id == topic.value.id) &&
                (p.Create? ==> p.user == username && (p.isMultiItem <==> mode == Extraction)) &&
                outcome.saved == store(p) &&
                (outcome.alert.Some? <==> outcome.saved) &&
                (outcome.saved ==> outcome.alert.value == if topic.Some? then UpdatedMessage else CreatedMessage)
    {
      if topicName == "" {
        return Rejected(EmptyNameMessage);
      }
      var itemsForSending := items;
      if mode == Summary {
        itemsForSending := [SummaryItem(summaryType)];
      }
      if mode == Extraction {
        itemsForSending := WithItemName(items);
      }
      if |itemsForSending| == 0 && mode == Extraction {
        return Rejected(NoItemsMessage);
      }
      var isMultiItem := mode == Extraction;
      var payload;
      if topic.Some? {
        payload := Edit(topic.value.id, topicName, topicType, SentFrequency(topicType, frequency), itemsForSending);
      } else {
        payload := Create(username, topicName, topicType, SentFrequency(topicType, frequency), itemsForSending, isMultiItem);
      }
      var success := store(payload);
      if success {
        outcome := Sent(payload, true, Some(if topic.Some? then UpdatedMessage else CreatedMessage));
      } else {
        outcome := Sent(payload, false, None);
      }
    }
  }
}
