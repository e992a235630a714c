/** The multi-item screen (ui/Zaia/src/screens/MultiItemsScreen.js): the
    extracted entries of a topic, each with named sub-items, regrouped so
    that every item name gets one group holding the values found under that
    name, in traversal order. */
module MultiItemsScreen {
  import opened Common

  datatype SubItem = SubItem(itemName: string, value: string)

  /** One extracted entry: its source, title, timestamps, done flag and
      named sub-items. */
  datatype Entry = Entry(source: string, title: string, createdOn: int, modifiedOn: int, done: Option<bool>,
                         items: seq<SubItem>)

  /** One value of a group, with the fields copied from its entry. */
  datatype ValueRec = ValueRec(value: string, url: string, title: string, createdOn: int, modifiedOn: int,
                               done: Option<bool>)

  datatype Group = Group(itemName: string, values: seq<ValueRec>)

  function ValueOf(e: Entry, s: SubItem): (v: ValueRec)
    ensures v.value == s.value && v.url == e.source && v.title == e.title
    ensures v.createdOn == e.createdOn && v.modifiedOn == e.modifiedOn && v.done == e.done
  {
    ValueRec(s.value, e.source, e.title, e.createdOn, e.modifiedOn, e.done)
  }

  /** The (name, value) pairs of the first `n` sub-items of `e`. */
  function EntryPairs(e: Entry, n: nat): (r: seq<(string, ValueRec)>)
    requires n <= |e.items|
    ensures |r| == n
    ensures forall k :: 0 <= k < n ==> r[k] == (e.items[k].itemName, ValueOf(e, e.items[k]))
  {
    if n == 0 then [] else EntryPairs(e, n - 1) + [(e.items[n - 1].itemName, ValueOf(e, e.items[n - 1]))]
  }

  /** Every sub-item of every entry, entries first, in traversal order. */
  function Flat(entries: seq<Entry>): seq<(string, ValueRec)>
  {
    if entries == [] then [] else Flat(entries[..|entries| - 1]) + EntryPairs(entries[|entries| - 1], |entries[|entries| - 1].items|)
  }

  function SubItemCount(entries: seq<Entry>): nat
  {
    if entries == [] then 0 else SubItemCount(entries[..|entries| - 1]) + |entries[|entries| - 1].items|
  }

  lemma {:induction false} FlatLength(entries: seq<Entry>)
    ensures |Flat(entries)| == SubItemCount(entries)
  {
    if entries != [] {
      FlatLength(entries[..|entries| - 1]);
    }
  }

  /** The grouping object: its groups by name and its keys in insertion
      order, which is the order `Object.values` lists them in. */
  datatype Groups = Groups(byName: map<string, Group>, order: seq<string>)

  /** `groupedItems[name].values.push(v)`, creating the group first when
      the name is new. */
  function Push(g: Groups, name: string, v: ValueRec): Groups
  {
    if name in g.byName then Groups(g.byName[name := g.byName[name].(values := g.byName[name].values + [v])], g.order)
    else Groups(g.byName[name := Group(name, [v])], g.order + [name])
  }

  /** The grouping object after the pairs `p`, pushed one after another. */
  function Build(p: seq<(string, ValueRec)>): Groups
  {
    if p == [] then Groups(map[], []) else Push(Build(p[..|p| - 1]), p[|p| - 1].0, p[|p| - 1].1)
  }

  /** `Object.values(groupedItems)` */
  function ValuesOf(g: Groups): (r: seq<Group>)
    requires forall k :: k in g.order ==> k in g.byName
    ensures |r| == |g.order|
    ensures forall i :: 0 <= i < |r| ==> r[i] == g.byName[g.order[i]]
    decreases |g.order|
  {
    if g.order == [] then []
    else ValuesOf(Groups(g.byName, g.order[..|g.order| - 1])) + [g.byName[g.order[|g.order| - 1]]]
  }

  /** The values a reference reading gives a name: those of the pairs with
      that name, in order. */
  function Select(p: seq<(string, ValueRec)>, name: string): (r: seq<ValueRec>)
    ensures |r| <= |p|
  {
    if p == [] then []
    else Select(p[..|p| - 1], name) + (if p[|p| - 1].0 == name then [p[|p| - 1].1] else [])
  }

  /** Where a name first appears in the pairs. */
  function FirstAt(p: seq<(string, ValueRec)>, name: string): (i: nat)
    ensures i <= |p|
    ensures i < |p| ==> p[i].0 == name
    ensures forall j :: 0 <= j < i ==> p[j].0 != name
  {
    FirstIndex(p, (e: (string, ValueRec)) => e.0 == name)
  }

  predicate Distinct(s: seq<string>)
  {
    forall i, j :: 0 <= i < j < |s| ==> s[i] != s[j]
  }

  function TotalValues(gs: seq<Group>): nat
  {
    if gs == [] then 0 else TotalValues(gs[..|gs| - 1]) + |gs[|gs| - 1].values|
  }

  /** The grouping, read without the object: one group per distinct name,
      names in order of first appearance, each group holding exactly the
      values pushed under its name, in order. */
  ghost predicate GroupedAsReference(g: Groups, p: seq<(string, ValueRec)>)
  {
    Distinct(g.order) &&
    (forall k :: k in g.byName <==> k in g.order) &&
    (forall k :: k in g.order <==> exists i :: 0 <= i < |p| && p[i].0 == k) &&
    (forall k :: k in g.byName ==> g.byName[k].itemName == k && g.byName[k].values == Select(p, k)) &&
    (forall i, j :: 0 <= i < j < |g.order| ==> FirstAt(p, g.order[i]) < FirstAt(p, g.order[j]))
  }

  lemma FirstAtPrefix(p: seq<(string, ValueRec)>, x: (string, ValueRec), name: string)
    requires FirstAt(p, name) < |p|
    ensures FirstAt(p + [x], name) == FirstAt(p, name)
  {
    var q := p + [x];
    assert forall j :: 0 <= j < |p| ==> q[j] == p[j];
  }

  /** A name that never occurs selects nothing. */
  lemma {:induction false} SelectAbsent(p: seq<(string, ValueRec)>, name: string)
    requires forall i :: 0 <= i < |p| ==> p[i].0 != name
    ensures Select(p, name) == []
  {
    if p != [] {
      SelectAbsent(p[..|p| - 1], name);
    }
  }

  /** The keys of the grouping object are the names that occur, each
      listed once. */
  lemma {:induction false} BuildKeys(p: seq<(string, ValueRec)>)
    ensures var g := Build(p);
            Distinct(g.order) && (forall k :: k in g.byName <==> k in g.order) &&
            (forall k :: k in g.order <==> exists i :: 0 <= i < |p| && p[i].0 == k)
  {
    if p != [] {
      var q := p[..|p| - 1];
      var x := p[|p| - 1];
      BuildKeys(q);
      var g := Build(q);
      var h := Build(p);
      assert h == Push(g, x.0, x.1);
      forall k
        ensures k in h.order <==> exists i :: 0 <= i < |p| && p[i].0 == k
      {
        if k in h.order && k != x.0 {
          var i :| 0 <= i < |q| && q[i].0 == k;
          assert p[i] == q[i];
        }
        if k != x.0 && (exists i :: 0 <= i < |p| && p[i].0 == k) {
          var i :| 0 <= i < |p| && p[i].0 == k;
          assert i < |q| && q[i] == p[i];
        }
        if k == x.0 {
          assert p[|p| - 1].0 == k;
        }
      }
    }
  }

  /** Each group is named by its key and holds exactly the values pushed
      under that name, in order. */
  lemma {:induction false} BuildGroups(p: seq<(string, ValueRec)>)
    ensures var g := Build(p);
            forall k :: k in g.byName ==> g.byName[k].itemName == k && g.byName[k].values == Select(p, k)
  {
    if p != [] {
      var q := p[..|p| - 1];
      var x := p[|p| - 1];
      BuildGroups(q);
      BuildKeys(q);
      var g := Build(q);
      var h := Build(p);
      assert h == Push(g, x.0, x.1);
      forall k | k in h.byName
        ensures h.byName[k].itemName == k && h.byName[k].values == Select(p, k)
      {
        assert Select(p, k) == Select(q, k) + (if x.0 == k then [x.1] else []);
        if k == x.0 && x.0 !in g.byName {
          SelectAbsent(q, k);
        }
      }
    }
  }

  /** Groups are listed in the order their names first appear. */
  lemma {:induction false} BuildOrder(p: seq<(string, ValueRec)>)
    ensures var g := Build(p);
            forall i, j :: 0 <= i < j < |g.order| ==> FirstAt(p, g.order[i]) < FirstAt(p, g.order[j])
  {
    if p != [] {
      var q := p[..|p| - 1];
      var x := p[|p| - 1];
      BuildOrder(q);
      BuildKeys(q);
      assert q + [x] == p;
      var g := Build(q);
      var h := Build(p);
      assert h == Push(g, x.0, x.1);
      forall k | k in g.order
        ensures FirstAt(q, k) < |q| && FirstAt(p, k) == FirstAt(q, k)
      {
        var i :| 0 <= i < |q| && q[i].0 == k;
        FirstAtPrefix(q, x, k);
      }
      if x.0 !in g.byName {
        FirstAtNew(q, x);
      }
    }
  }

  /** A name new to `q` first appears right after it. */
  lemma FirstAtNew(q: seq<(string, ValueRec)>, x: (string, ValueRec))
    requires forall j :: 0 <= j < |q| ==> q[j].0 != x.0
    ensures FirstAt(q + [x], x.0) == |q|
  {
    var p := q + [x];
    assert forall j :: 0 <= j < |q| ==> p[j] == q[j];
    assert p[|q|] == x;
  }

  /** Pushing one pair after another builds exactly the reference
      grouping. */
  lemma BuildIsReference(p: seq<(string, ValueRec)>)
    ensures GroupedAsReference(Build(p), p)
  {
    BuildKeys(p);
    BuildGroups(p);
    BuildOrder(p);
  }

  /** Every pushed value lands in exactly one group. */
  lemma {:induction false} BuildKeepsEveryValue(p: seq<(string, ValueRec)>)
    ensures var g := Build(p);
            (forall k :: k in g.order ==> k in g.byName) && TotalValues(ValuesOf(g)) == |p|
  {
    if p != [] {
      var q := p[..|p| - 1];
      var x := p[|p| - 1];
      BuildKeepsEveryValue(q);
      BuildIsReference(q);
      var g := Build(q);
      var h := Build(p);
      if x.0 in g.byName {
        TotalAfterPush(g.byName, g.order, x.0, x.1);
      } else {
        assert h.order == g.order + [x.0];
        var vs := ValuesOf(h);
        assert vs[..|vs| - 1] == ValuesOf(g) by {
          SameValuesOnOldKeys(g.byName, h.byName, g.order);
          assert Groups(h.byName, h.order[..|h.order| - 1]) == Groups(h.byName, g.order);
        }
      }
    }
  }

  /** The listed groups only depend on the groups of the listed keys. */
  lemma {:induction false} SameValuesOnOldKeys(m: map<string, Group>, m': map<string, Group>, order: seq<string>)
    requires forall k :: k in order ==> k in m && k in m' && m'[k] == m[k]
    ensures ValuesOf(Groups(m', order)) == ValuesOf(Groups(m, order))
  {
    if order != [] {
      SameValuesOnOldKeys(m, m', order[..|order| - 1]);
    }
  }

  /** Pushing onto an existing group adds one to the total. */
  lemma {:induction false} TotalAfterPush(m: map<string, Group>, order: seq<string>, name: string, v: ValueRec)
    requires forall k :: k in order ==> k in m
    requires Distinct(order) && name in m && name in order
    ensures var m' := m[name := m[name].(values := m[name].values + [v])];
            TotalValues(ValuesOf(Groups(m', order))) == TotalValues(ValuesOf(Groups(m, order))) + 1
  {
    var m' := m[name := m[name].(values := m[name].values + [v])];
    var last := order[|order| - 1];
    var front := order[..|order| - 1];
    assert Distinct(front);
    if last == name {
      assert name !in front;
      SameValuesOnOldKeys(m, m', front);
    } else {
      assert name in front;
      TotalAfterPush(m, front, name, v);
    }
  }

  /** The groups `getValuePerExtractedItems` returns. */
  function Grouped(entries: seq<Entry>): seq<Group>
  {
    var g := Build(Flat(entries));
    BuildKeys(Flat(entries));
    ValuesOf(g)
  }

  /** The names of the groups, in order. */
  function NamesOf(groups: seq<Group>): (r: seq<string>)
    ensures |r| == |groups|
    ensures forall i :: 0 <= i < |groups| ==> r[i] == groups[i].itemName
  {
    if groups == [] then [] else NamesOf(groups[..|groups| - 1]) + [groups[|groups| - 1].itemName]
  }

  /** The listed groups are those of the object's keys, in key order. */
  lemma GroupedIsBuild(entries: seq<Entry>)
    ensures var g := Build(Flat(entries));
            (forall k :: k in g.order ==> k in g.byName) &&
            NamesOf(Grouped(entries)) == g.order &&
            forall i :: 0 <= i < |g.order| ==> Grouped(entries)[i] == g.byName[g.order[i]]
  {
    var g := Build(Flat(entries));
    BuildKeys(Flat(entries));
    BuildGroups(Flat(entries));
  }

  /** Exactly one group per distinct item name. */
  lemma GroupedOnePerName(entries: seq<Entry>)
    ensures var p := Flat(entries);
            Distinct(NamesOf(Grouped(entries))) &&
            forall k :: k in NamesOf(Grouped(entries)) <==> exists i :: 0 <= i < |p| && p[i].0 == k
  {
    GroupedIsBuild(entries);
    BuildKeys(Flat(entries));
  }

  /** Each group holds exactly the values found under its name, in
      traversal order. */
  lemma GroupedValuesInOrder(entries: seq<Entry>)
    ensures var gs := Grouped(entries);
            forall i :: 0 <= i < |gs| ==> gs[i].values == Select(Flat(entries), gs[i].itemName)
  {
    GroupedIsBuild(entries);
    BuildGroups(Flat(entries));
  }

  /** Groups are listed in the order their names first appear. */
  lemma GroupedFirstAppearance(entries: seq<Entry>)
    ensures var names := NamesOf(Grouped(entries));
            forall i, j :: 0 <= i < j < |names| ==> FirstAt(Flat(entries), names[i]) < FirstAt(Flat(entries), names[j])
  {
    GroupedIsBuild(entries);
    BuildOrder(Flat(entries));
  }

  /** Every sub-item of every entry gives exactly one value, so no entries
      give no groups. */
  lemma GroupedTotal(entries: seq<Entry>)
    ensures TotalValues(Grouped(entries)) == SubItemCount(entries)
    ensures entries == [] ==> Grouped(entries) == []
  {
    BuildKeepsEveryValue(Flat(entries));
    FlatLength(entries);
  }

  /** `getValuePerExtractedItems(items)`, by the nested loops of the
      source over entries and their sub-items. */
  method GroupValues(entries: seq<Entry>) returns (groups: seq<Group>)
    ensures groups == Grouped(entries)
  {
    var byName: map<string, Group> := map[];
    var order: seq<string> := [];
    for i := 0 to |entries|
      invariant Groups(byName, order) == Build(Flat(entries[..i]))
    {
      var e := entries[i];
      assert entries[..i + 1][..i] == entries[..i];
      assert Flat(entries[..i]) + EntryPairs(e, 0) == Flat(entries[..i]);
      for j := 0 to |e.items|
        invariant Groups(byName, order) == Build(Flat(entries[..i]) + EntryPairs(e, j))
      {
        var name := e.items[j].itemName;
        var v := ValueOf(e, e.items[j]);
        ghost var pushed := Push(Groups(byName, order), name, v);
        if name !in byName {
          byName := byName[name := Group(name, [])];
          order := order + [name];
        }
        byName := byName[name := byName[name].(values := byName[name].values + [v])];
        assert [] + [v] == [v];
        assert Groups(byName, order) == pushed;
        ghost var before := Flat(entries[..i]) + EntryPairs(e, j);
        assert Flat(entries[..i]) + EntryPairs(e, j + 1) == before + [(name, v)];
        assert (before + [(name, v)])[..|before|] == before;
      }
    }
    assert entries[..|entries|] == entries;
    BuildKeys(Flat(entries));
    groups := ValuesOf(Groups(byName, order));
  }

  /** The names of `Object.prototype`: a plain object already answers
      these keys, with a function. */
  const PrototypeKeys: set<string> := {"constructor", "toString", "toLocaleString", "valueOf", "hasOwnProperty",
                                       "isPrototypeOf", "propertyIsEnumerable", "__proto__", "__defineGetter__",
                                       "__defineSetter__", "__lookupGetter__", "__lookupSetter__"}

  /** One push as the source writes it: `!groupedItems[name]` is false for
      an inherited key, no group is created, and pushing onto the missing
      `values` throws a TypeError (`None`). */
  function PushAsWritten(g: Groups, name: string, v: ValueRec): Option<Groups>
  {
    if name in g.byName then Some(Push(g, name, v))
    else if name in PrototypeKeys then None
    else Some(Push(g, name, v))
  }

  /** The whole grouping as the source writes it: `None` once a push
      throws. */
  function BuildAsWritten(p: seq<(string, ValueRec)>): Option<Groups>
  {
    if p == [] then Some(Groups(map[], []))
    else
      var g := BuildAsWritten(p[..|p| - 1]);
      if g.None? then None else PushAsWritten(g.value, p[|p| - 1].0, p[|p| - 1].1)
  }

  /** Without inherited names the source's grouping is the grouping by
      name. */
  lemma {:induction false} AsWrittenAgrees(p: seq<(string, ValueRec)>)
    requires forall i :: 0 <= i < |p| ==> p[i].0 !in PrototypeKeys
    ensures BuildAsWritten(p) == Some(Build(p))
  {
    if p != [] {
      AsWrittenAgrees(p[..|p| - 1]);
    }
  }

  /** An entry whose sub-item is named "constructor" makes the source's
      grouping throw, where the grouping by name gives one group. */
  lemma PrototypeNameThrows(e: Entry, v: string)
    requires e.items == [SubItem("constructor", v)]
    ensures BuildAsWritten(Flat([e])).None?
    ensures var g := Build(Flat([e]));
            g.order == ["constructor"] && g.byName["constructor"].values == [ValueOf(e, e.items[0])]
  {
    assert [e][..0] == [];
    assert Flat([e]) == EntryPairs(e, 1);
  }

  /** The screen's state. */
  class Screen {
    var multiItems: seq<Entry>
    var perExtractedItem: seq<Group>
    var loading: bool
    var error: Option<string>

    constructor()
      ensures multiItems == [] && perExtractedItem == [] && loading && error.None?
    {
      multiItems, perExtractedItem, loading, error := [], [], true, None;
    }

    /** `fetchData`: `fetched` is what `fetchMultiItem` returned, `None`
        when it threw. An empty list still replaces the items and adds
        the "no items" message. */
    method FetchData(fetched: Option<seq<Entry>>)
      modifies this
      ensures !loading
      ensures fetched.None? ==> multiItems == old(multiItems) && perExtractedItem == old(perExtractedItem) && error.None?
      ensures fetched.Some? ==> multiItems == fetched.value && perExtractedItem == Grouped(fetched.value)
      ensures fetched.Some? ==> (error.Some? <==> fetched.value == []) &&
                                (error.Some? ==> error.value == "There are no items here")
    {
      loading := true;
      error := None;
      if fetched.None? {
        loading := false;
        return;
      }
      var data := fetched.value;
      if |data| > 0 {
        multiItems := data;
        perExtractedItem := GroupValues(data);
        loading := false;
      } else {
        error := Some("There are no items here");
        multiItems := data;
        perExtractedItem := GroupValues(data);
        loading := false;
      }
    }
  }
}
