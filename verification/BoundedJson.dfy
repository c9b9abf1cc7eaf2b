/**
  The recursive bound the control plane puts on native JSON before it is kept
  (src/agent_bridge_connect/approval_protocol.py:27-40).
*/
module BoundedJson {

  /** A key of a mapping; only text keys are kept. */
  datatype Key = TextKey(text: string) | OtherKey

  datatype Entry = Entry(key: Key, value: Json)

  /** A value; `Other` is anything that is not JSON, with the text it shows as. */
  datatype Json =
    | Null
    | Bool(b: bool)
    | Number(value: real)
    | Text(text: string)
    | Array(items: seq<Json>)
    | Object(entries: seq<Entry>)
    | Other(shown: string)

  const MAX_DEPTH := 4
  const MAX_ITEMS := 32
  const MAX_KEY := 80
  const MAX_TEXT := 240

  /** `s[:n]` */
  function Cut<T>(s: seq<T>, n: nat): (r: seq<T>)
    ensures |r| <= n && r <= s && (|s| <= n ==> r == s)
  {
    if |s| <= n then s else s[..n]
  }

  // ------------------------------------------------------------ the bound

  /** `result[key] = value`: an existing key keeps its place. */
  function Put(entries: seq<Entry>, key: string, value: Json): seq<Entry> {
    if entries == [] then [Entry(TextKey(key), value)]
    else if entries[0].key == TextKey(key) then [Entry(TextKey(key), value)] + entries[1..]
    else [entries[0]] + Put(entries[1..], key, value)
  }

  /** `_bounded_json` */
  function Bound(value: Json, depth: nat): Json
    requires depth <= MAX_DEPTH + 1
    decreases MAX_DEPTH + 1 - depth, 1, 0
  {
    if depth > MAX_DEPTH then Null
    else match value
      case Object(entries) => Object(BoundEntries(Cut(entries, MAX_ITEMS), depth))
      case Array(items) => Array(BoundItems(Cut(items, MAX_ITEMS), depth))
      case Text(text) => Text(Cut(text, MAX_TEXT))
      case Other(shown) => Text(Cut(shown, MAX_TEXT))
      case _ => value
  }

  function BoundEntries(entries: seq<Entry>, depth: nat): seq<Entry>
    requires depth <= MAX_DEPTH
    decreases MAX_DEPTH + 1 - depth, 0, |entries|
  {
    if entries == [] then []
    else
      var last := entries[|entries| - 1];
      var result := BoundEntries(entries[..|entries| - 1], depth);
      if last.key.TextKey? then Put(result, Cut(last.key.text, MAX_KEY), Bound(last.value, depth + 1)) else result
  }

  function BoundItems(items: seq<Json>, depth: nat): (r: seq<Json>)
    requires depth <= MAX_DEPTH
    ensures |r| == |items| && forall k :: 0 <= k < |items| ==> r[k] == Bound(items[k], depth + 1)
    decreases MAX_DEPTH + 1 - depth, 0, |items|
  {
    if items == [] then [] else BoundItems(items[..|items| - 1], depth) + [Bound(items[|items| - 1], depth + 1)]
  }

  /** The recursion as it runs: a dictionary filled in order, a list built in order. */
  method BoundJson(value: Json, depth: nat) returns (bounded: Json)
    requires depth <= MAX_DEPTH + 1
    ensures bounded == Bound(value, depth)
    decreases MAX_DEPTH + 1 - depth
  {
    if depth > MAX_DEPTH {
      return Null;
    }
    match value {
      case Object(entries) =>
        var result: seq<Entry> := [];
        var kept := Cut(entries, MAX_ITEMS);
        for i := 0 to |kept|
          invariant result == BoundEntries(kept[..i], depth)
        {
          assert kept[..i + 1][..i] == kept[..i];
          if kept[i].key.TextKey? {
            var item := BoundJson(kept[i].value, depth + 1);
            result := Put(result, Cut(kept[i].key.text, MAX_KEY), item);
          }
        }
        assert kept[..|kept|] == kept;
        bounded := Object(result);
      case Array(items) =>
        var result: seq<Json> := [];
        var kept := Cut(items, MAX_ITEMS);
        for i := 0 to |kept|
          invariant result == BoundItems(kept[..i], depth)
        {
          assert kept[..i + 1][..i] == kept[..i];
          var item := BoundJson(kept[i], depth + 1);
          result := result + [item];
        }
        assert kept[..|kept|] == kept;
        bounded := Array(result);
      case Text(text) => bounded := Text(Cut(text, MAX_TEXT));
      case Other(shown) => bounded := Text(Cut(shown, MAX_TEXT));
      case _ => bounded := value;
    }
  }

  // ------------------------------------------------------------ what is bounded

  /** The entries of a dictionary: distinct text keys that are short enough. */
  predicate IsDict(entries: seq<Entry>) {
    (forall i :: 0 <= i < |entries| ==> entries[i].key.TextKey? && |entries[i].key.text| <= MAX_KEY)
    && forall i, j :: 0 <= i < j < |entries| ==> entries[i].key != entries[j].key
  }

  /** A value within the limits, standing at this depth. */
  predicate IsBounded(value: Json, depth: nat)
    decreases value
  {
    if depth > MAX_DEPTH then value == Null
    else match value
      case Object(entries) =>
        |entries| <= MAX_ITEMS && IsDict(entries)
        && forall i :: 0 <= i < |entries| ==> IsBounded(entries[i].value, depth + 1)
      case Array(items) => |items| <= MAX_ITEMS && forall i :: 0 <= i < |items| ==> IsBounded(items[i], depth + 1)
      case Text(text) => |text| <= MAX_TEXT
      case Other(_) => false
      case _ => true
  }

  predicate EntriesBounded(entries: seq<Entry>, depth: nat) {
    IsDict(entries) && forall i :: 0 <= i < |entries| ==> IsBounded(entries[i].value, depth + 1)
  }

  lemma {:induction false} PutElements(entries: seq<Entry>, key: string, value: Json)
    ensures var r := Put(entries, key, value);
            |r| <= |entries| + 1 && forall e <- r :: e == Entry(TextKey(key), value) || e in entries
  {
    if entries != [] && entries[0].key != TextKey(key) {
      PutElements(entries[1..], key, value);
    }
  }

  /** Filling in one more entry keeps a bounded dictionary bounded, colliding keys included. */
  lemma {:induction false} PutKeeps(entries: seq<Entry>, key: string, value: Json, depth: nat)
    requires EntriesBounded(entries, depth) && |key| <= MAX_KEY && IsBounded(value, depth + 1)
    ensures var r := Put(entries, key, value); EntriesBounded(r, depth) && |r| <= |entries| + 1
  {
    hide IsBounded;
    PutElements(entries, key, value);
    if entries != [] && entries[0].key != TextKey(key) {
      var first, rest := entries[0], entries[1..];
      PutKeeps(rest, key, value, depth);
      PutElements(rest, key, value);
      var tail := Put(rest, key, value);
      assert forall e <- rest :: e.key != first.key;
      assert forall j :: 0 <= j < |tail| ==> tail[j] in tail;
    }
  }

  /** Everything the bound returns is within the limits. */
  lemma {:induction false} BoundIsBounded(value: Json, depth: nat)
    requires depth <= MAX_DEPTH + 1
    ensures IsBounded(Bound(value, depth), depth)
    decreases MAX_DEPTH + 1 - depth, 1, 0
  {
    if depth <= MAX_DEPTH {
      match value {
        case Object(entries) => BoundEntriesAreBounded(Cut(entries, MAX_ITEMS), depth);
        case Array(items) =>
          var kept := Cut(items, MAX_ITEMS);
          forall k | 0 <= k < |kept| ensures IsBounded(Bound(kept[k], depth + 1), depth + 1) {
            BoundIsBounded(kept[k], depth + 1);
          }
        case _ =>
      }
    }
  }

  lemma {:induction false} BoundEntriesAreBounded(entries: seq<Entry>, depth: nat)
    requires depth <= MAX_DEPTH
    ensures EntriesBounded(BoundEntries(entries, depth), depth) && |BoundEntries(entries, depth)| <= |entries|
    decreases MAX_DEPTH + 1 - depth, 0, |entries|
  {
    hide IsBounded, Bound;
    if entries != [] {
      var init, last := entries[..|entries| - 1], entries[|entries| - 1];
      BoundEntriesAreBounded(init, depth);
      if last.key.TextKey? {
        BoundIsBounded(last.value, depth + 1);
        PutKeeps(BoundEntries(init, depth), Cut(last.key.text, MAX_KEY), Bound(last.value, depth + 1), depth);
      }
    }
  }

  // ------------------------------------------------------------ idempotence

  lemma {:induction false} PutNew(entries: seq<Entry>, key: string, value: Json)
    requires forall e <- entries :: e.key != TextKey(key)
    ensures Put(entries, key, value) == entries + [Entry(TextKey(key), value)]
  {
    if entries != [] {
      assert entries[0] in entries;
      PutNew(entries[1..], key, value);
    }
  }

  /** A value within the limits is left as it is. */
  lemma {:induction false} BoundedIsFixed(value: Json, depth: nat)
    requires depth <= MAX_DEPTH + 1 && IsBounded(value, depth)
    ensures Bound(value, depth) == value
    decreases MAX_DEPTH + 1 - depth, 1, 0
  {
    if depth <= MAX_DEPTH {
      match value {
        case Object(entries) => BoundedEntriesAreFixed(entries, depth);
        case Array(items) =>
          forall k | 0 <= k < |items| ensures Bound(items[k], depth + 1) == items[k] {
            BoundedIsFixed(items[k], depth + 1);
          }
          assert BoundItems(items, depth) == items;
        case _ =>
      }
    }
  }

  lemma {:induction false} BoundedEntriesAreFixed(entries: seq<Entry>, depth: nat)
    requires depth <= MAX_DEPTH && EntriesBounded(entries, depth)
    ensures BoundEntries(entries, depth) == entries
    decreases MAX_DEPTH + 1 - depth, 0, |entries|
  {
    hide IsBounded, Bound;
    if entries != [] {
      var init, last := entries[..|entries| - 1], entries[|entries| - 1];
      assert entries == init + [last];
      BoundedEntriesAreFixed(init, depth);
      BoundedIsFixed(last.value, depth + 1);
      forall e <- init ensures e.key != last.key {
        var k :| 0 <= k < |init| && init[k] == e;
        assert entries[k] == e;
      }
      PutNew(init, last.key.text, last.value);
    }
  }

  /** The bound leaves a value alone exactly when it is within the limits; so bounding twice is bounding once. */
  lemma BoundIsIdempotent(value: Json, depth: nat)
    requires depth <= MAX_DEPTH + 1
    ensures Bound(value, depth) == value <==> IsBounded(value, depth)
    ensures Bound(Bound(value, depth), depth) == Bound(value, depth)
  {
    BoundIsBounded(value, depth);
    BoundedIsFixed(Bound(value, depth), depth);
    if IsBounded(value, depth) {
      BoundedIsFixed(value, depth);
    }
  }

  // ------------------------------------------------------------ size

  /** How many values there are in a value, itself included. */
  function Nodes(value: Json): nat
    decreases value, 1
  {
    match value
    case Object(entries) => 1 + EntryNodes(entries)
    case Array(items) => 1 + ItemNodes(items)
    case _ => 1
  }

  function ItemNodes(items: seq<Json>): nat
    decreases items, 0
  {
    if items == [] then 0 else Nodes(items[0]) + ItemNodes(items[1..])
  }

  function EntryNodes(entries: seq<Entry>): nat
    decreases entries, 0
  {
    if entries == [] then 0 else NodesOf(entries[0]) + EntryNodes(entries[1..])
  }

  function NodesOf(entry: Entry): nat
    decreases entry, 2
  {
    Nodes(entry.value)
  }

  /** The most values that fit below this depth: 1 + 32 + 32^2 + ... */
  function Capacity(depth: nat): nat
    requires depth <= MAX_DEPTH + 1
    decreases MAX_DEPTH + 1 - depth
  {
    if depth > MAX_DEPTH then 1 else 1 + MAX_ITEMS * Capacity(depth + 1)
  }

  function Power(base: nat, exponent: nat): nat {
    if exponent == 0 then 1 else base * Power(base, exponent - 1)
  }

  lemma CapacityInClosedForm()
    ensures Capacity(0) == (Power(32, 6) - 1) / 31 == 34636833
  {
    assert Capacity(5) == 1;
    assert Capacity(4) == 33;
    assert Capacity(3) == 1057;
    assert Capacity(2) == 33825;
    assert Capacity(1) == 1082401;
    assert Power(32, 2) == 1024;
    assert Power(32, 4) == 1048576;
  }

  lemma {:induction false} BoundedFits(value: Json, depth: nat)
    requires depth <= MAX_DEPTH + 1 && IsBounded(value, depth)
    ensures Nodes(value) <= Capacity(depth)
    decreases MAX_DEPTH + 1 - depth, 1, 0
  {
    if depth <= MAX_DEPTH {
      match value {
        case Object(entries) => EntriesFit(entries, depth);
        case Array(items) => ItemsFit(items, depth);
        case _ =>
      }
    }
  }

  lemma {:induction false} ItemsFit(items: seq<Json>, depth: nat)
    requires depth <= MAX_DEPTH && forall i :: 0 <= i < |items| ==> IsBounded(items[i], depth + 1)
    ensures ItemNodes(items) <= |items| * Capacity(depth + 1)
    decreases MAX_DEPTH + 1 - depth, 0, |items|
  {
    hide IsBounded, Nodes, Capacity;
    if items != [] {
      BoundedFits(items[0], depth + 1);
      ItemsFit(items[1..], depth);
      assert |items| * Capacity(depth + 1) == Capacity(depth + 1) + |items[1..]| * Capacity(depth + 1);
    }
  }

  lemma {:induction false} EntriesFit(entries: seq<Entry>, depth: nat)
    requires depth <= MAX_DEPTH && forall i :: 0 <= i < |entries| ==> IsBounded(entries[i].value, depth + 1)
    ensures EntryNodes(entries) <= |entries| * Capacity(depth + 1)
    decreases MAX_DEPTH + 1 - depth, 0, |entries|
  {
    hide IsBounded, Nodes, Capacity;
    if entries != [] {
      BoundedFits(entries[0].value, depth + 1);
      EntriesFit(entries[1..], depth);
      assert |entries| * Capacity(depth + 1) == Capacity(depth + 1) + |entries[1..]| * Capacity(depth + 1);
    }
  }

  /** Whatever the input, the result has at most (32^6 - 1) / 31 values. */
  lemma BoundIsSmall(value: Json)
    ensures Nodes(Bound(value, 0)) <= (Power(32, 6) - 1) / 31
  {
    hide Power, Nodes;
    BoundIsBounded(value, 0);
    BoundedFits(Bound(value, 0), 0);
    CapacityInClosedForm();
  }

  /** The tree that fills every list to the limit. */
  function FullTree(depth: nat): Json
    requires depth <= MAX_DEPTH + 1
    decreases MAX_DEPTH + 1 - depth
  {
    if depth > MAX_DEPTH then Null else Array(seq(MAX_ITEMS, _ => FullTree(depth + 1)))
  }

  lemma {:induction false} SameItemNodes(items: seq<Json>, item: Json)
    requires forall i :: 0 <= i < |items| ==> items[i] == item
    ensures ItemNodes(items) == |items| * Nodes(item)
  {
    hide Nodes;
    if items != [] {
      SameItemNodes(items[1..], item);
      assert |items| * Nodes(item) == Nodes(item) + |items[1..]| * Nodes(item);
    }
  }

  /** The bound on the size is exact: the full tree reaches it, and is left alone. */
  lemma {:induction false} FullTreeIsFull(depth: nat)
    requires depth <= MAX_DEPTH + 1
    ensures IsBounded(FullTree(depth), depth) && Nodes(FullTree(depth)) == Capacity(depth)
    ensures Bound(FullTree(depth), depth) == FullTree(depth)
    decreases MAX_DEPTH + 1 - depth
  {
    hide ItemNodes;
    if depth <= MAX_DEPTH {
      FullTreeIsFull(depth + 1);
      SameItemNodes(FullTree(depth).items, FullTree(depth + 1));
      assert |FullTree(depth).items| == MAX_ITEMS;
    }
    BoundedIsFixed(FullTree(depth), depth);
  }
}
