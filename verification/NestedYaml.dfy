/** The dotted-key update of an ordered YAML mapping (setNestedYAML in cmd/worker/main.go). */
module NestedYaml {
  import opened Sequences

  /** A mapping key; keys of different types may print the same. */
  datatype Key = Text(s: string) | Other(kind: string, printed: string)

  datatype Value = Scalar(text: string) | Opaque(tag: string) | Mapping(items: seq<Item>)
  datatype Item = Item(key: Key, value: Value)

  function Printed(k: Key): string {
    if k.Text? then k.s else k.printed
  }

  /** The position of the first item whose key prints as the given text, or the length. */
  function Position(items: seq<Item>, key: string): (k: nat)
    ensures k <= |items| && (k < |items| ==> Printed(items[k].key) == key)
    ensures forall j | 0 <= j < k :: Printed(items[j].key) != key
  {
    if items == [] || Printed(items[0].key) == key then 0 else 1 + Position(items[1..], key)
  }

  /** Looking a path up, one key at a time through nested mappings. */
  function Get(items: seq<Item>, path: seq<string>): Option<Value>
    requires path != []
    decreases |path|
  {
    var k := Position(items, path[0]);
    if k == |items| then None
    else if |path| == 1 then Some(items[k].value)
    else if items[k].value.Mapping? then Get(items[k].value.items, path[1..])
    else None
  }

  /** The mapping an update descends into: whatever is not a mapping is replaced by an empty one. */
  function Inner(items: seq<Item>, key: string): seq<Item> {
    var k := Position(items, key);
    if k < |items| && items[k].value.Mapping? then items[k].value.items else []
  }

  /** Gives the key this value, in place when it is there and at the end when it is not. */
  function Put(items: seq<Item>, key: string, value: Value): seq<Item> {
    var k := Position(items, key);
    if k < |items| then items[k := items[k].(value := value)] else items + [Item(Text(key), value)]
  }

  function Set(items: seq<Item>, path: seq<string>, text: string): seq<Item>
    decreases |path|
  {
    if path == [] then items
    else if |path| == 1 then Put(items, path[0], Scalar(text))
    else Put(items, path[0], Mapping(Set(Inner(items, path[0]), path[1..], text)))
  }

  method SetNestedYAML(items: seq<Item>, keys: seq<string>, text: string) returns (out: seq<Item>)
    ensures out == Set(items, keys, text)
    decreases |keys|
  {
    out := items;
    if |keys| == 0 {
      return;
    }
    var key := keys[0];
    var i := 0;
    while i < |items|
      invariant 0 <= i <= |items| && out == items
      invariant Position(items, key) == i + Position(items[i..], key)
    {
      if Printed(items[i].key) == key {
        if |keys| == 1 {
          out := out[i := out[i].(value := Scalar(text))];
          return;
        }
        var child: seq<Item> := [];
        if items[i].value.Mapping? {
          child := items[i].value.items;
        }
        var updated := SetNestedYAML(child, keys[1..], text);
        out := out[i := out[i].(value := Mapping(updated))];
        return;
      }
      i := i + 1;
    }
    if |keys| == 1 {
      out := out + [Item(Text(key), Scalar(text))];
    } else {
      var child := SetNestedYAML([], keys[1..], text);
      out := out + [Item(Text(key), Mapping(child))];
    }
  }

  // ---------------------------------------------------------------------------------------
  // Laws
  // ---------------------------------------------------------------------------------------

  lemma {:induction false} PositionOfSum(items: seq<Item>, more: seq<Item>, key: string)
    ensures Position(items + more, key) ==
            if Position(items, key) < |items| then Position(items, key) else |items| + Position(more, key)
  {
    if items == [] {
      assert items + more == more;
    } else {
      assert (items + more)[1..] == items[1..] + more;
      PositionOfSum(items[1..], more, key);
    }
  }

  /** Positions depend on how the keys print and on nothing else. */
  lemma {:induction false} SamePositions(a: seq<Item>, b: seq<Item>, key: string)
    requires |a| == |b| && forall i | 0 <= i < |a| :: a[i].key == b[i].key
    ensures Position(a, key) == Position(b, key)
  {
    if a != [] {
      SamePositions(a[1..], b[1..], key);
    }
  }

  /** After a put the key is where it was, or last if it was nowhere; every other key stays. */
  lemma PutPositions(items: seq<Item>, key: string, value: Value, other: string)
    ensures var after := Put(items, key, value);
            && Position(after, key) == Position(items, key) < |after|
            && after[Position(items, key)].value == value
            && (other != key ==>
                  (Position(after, other) < |after| <==> Position(items, other) < |items|)
                  && (Position(items, other) < |items| ==>
                        Position(after, other) == Position(items, other)
                        && after[Position(items, other)] == items[Position(items, other)]))
  {
    var k := Position(items, key);
    var after := Put(items, key, value);
    if k < |items| {
      SamePositions(items, after, key);
      SamePositions(items, after, other);
    } else {
      PositionOfSum(items, [Item(Text(key), value)], key);
      PositionOfSum(items, [Item(Text(key), value)], other);
    }
  }

  /** What was set is read back. */
  lemma {:induction false} GetSet(items: seq<Item>, path: seq<string>, text: string)
    requires path != []
    ensures Get(Set(items, path, text), path) == Some(Scalar(text))
    decreases |path|
  {
    if |path| == 1 {
      PutPositions(items, path[0], Scalar(text), path[0]);
    } else {
      var inner := Set(Inner(items, path[0]), path[1..], text);
      PutPositions(items, path[0], Mapping(inner), path[0]);
      GetSet(Inner(items, path[0]), path[1..], text);
    }
  }

  /** Unrelated paths that start alike go on, and are unrelated there. */
  lemma TailsApart(path: seq<string>, other: seq<string>)
    requires path != [] && other != [] && path[0] == other[0] && !(path <= other) && !(other <= path)
    ensures |path| > 1 && |other| > 1 && !(path[1..] <= other[1..]) && !(other[1..] <= path[1..])
  {
    assert path == [path[0]] + path[1..] && other == [other[0]] + other[1..];
  }

  /** Any path that is neither a prefix nor an extension of the one set reads as before. */
  lemma {:induction false} GetElsewhere(items: seq<Item>, path: seq<string>, text: string, other: seq<string>)
    requires path != [] && other != [] && !(path <= other) && !(other <= path)
    ensures Get(Set(items, path, text), other) == Get(items, other)
    decreases |path|
  {
    var value := if |path| == 1 then Scalar(text) else Mapping(Set(Inner(items, path[0]), path[1..], text));
    PutPositions(items, path[0], value, other[0]);
    if path[0] == other[0] {
      TailsApart(path, other);
      GetElsewhere(Inner(items, path[0]), path[1..], text, other[1..]);
      GetThroughInner(items, other);
    }
  }

  /** A longer path is looked up in the inner mapping, which is empty where there is none. */
  lemma GetThroughInner(items: seq<Item>, path: seq<string>)
    requires |path| > 1
    ensures Get(items, path) == Get(Inner(items, path[0]), path[1..])
  {
  }

  /** A strict extension of the path set is no longer there: a scalar has no inside. */
  lemma {:induction false} GetBelow(items: seq<Item>, path: seq<string>, text: string, below: seq<string>)
    requires path != [] && path < below
    ensures Get(Set(items, path, text), below) == None
    decreases |path|
  {
    if |path| == 1 {
      PutPositions(items, path[0], Scalar(text), path[0]);
    } else {
      var inner := Set(Inner(items, path[0]), path[1..], text);
      PutPositions(items, path[0], Mapping(inner), path[0]);
      assert path[1..] < below[1..];
      GetBelow(Inner(items, path[0]), path[1..], text, below[1..]);
    }
  }

  function Keys(items: seq<Item>): seq<Key> {
    seq(|items|, i requires 0 <= i < |items| => items[i].key)
  }

  lemma PutKeys(items: seq<Item>, key: string, value: Value)
    ensures Keys(items) <= Keys(Put(items, key, value))
    ensures |Put(items, key, value)| <= |items| + 1
    ensures Position(items, key) < |items| ==> Keys(Put(items, key, value)) == Keys(items)
    ensures Position(items, key) == |items| ==> Keys(Put(items, key, value)) == Keys(items) + [Text(key)]
  {
  }

  /** Keys keep their order: at the top level, and inside every mapping on the path, the old
      keys come first and at most one key is added, at the end. */
  ghost predicate OrderKept(before: seq<Item>, after: seq<Item>, path: seq<string>)
    decreases |path|
  {
    path != [] ==>
      && Keys(before) <= Keys(after) && |after| <= |before| + 1
      && (|path| > 1 ==> OrderKept(Inner(before, path[0]), Inner(after, path[0]), path[1..]))
  }

  lemma {:induction false} SetKeepsOrder(items: seq<Item>, path: seq<string>, text: string)
    ensures OrderKept(items, Set(items, path, text), path)
    decreases |path|
  {
    if |path| == 1 {
      PutKeys(items, path[0], Scalar(text));
    } else if |path| > 1 {
      var inner := Set(Inner(items, path[0]), path[1..], text);
      PutKeys(items, path[0], Mapping(inner));
      PutPositions(items, path[0], Mapping(inner), path[0]);
      SetKeepsOrder(Inner(items, path[0]), path[1..], text);
    }
  }

  /** On every level of the path only one item changes or is added: the first whose key prints as
      the path says keeps its key, an added one has it as text; what the path ends at is the text. */
  ghost predicate FrameKept(before: seq<Item>, after: seq<Item>, path: seq<string>, text: string)
    decreases |path|
  {
    if path == [] then after == before
    else
      exists k: nat :: ChangedOnlyAt(before, after, path[0], k)
        && if |path| == 1 then after[k].value == Scalar(text)
           else after[k].value.Mapping?
                && FrameKept(if k < |before| && before[k].value.Mapping? then before[k].value.items else [],
                             after[k].value.items, path[1..], text)
  }

  /** Item k is the first of that name, or a new last one, and every other item is as it was. */
  ghost predicate ChangedOnlyAt(before: seq<Item>, after: seq<Item>, key: string, k: nat) {
    && k < |after| && (forall j | 0 <= j < k && j < |before| :: Printed(before[j].key) != key)
    && (if k < |before| then |after| == |before| && after[k].key == before[k].key && Printed(before[k].key) == key
        else k == |before| && |after| == |before| + 1 && after[k].key == Text(key))
    && (forall j | 0 <= j < |before| && j != k :: after[j] == before[j])
  }

  lemma {:induction false} SetKeepsFrame(items: seq<Item>, path: seq<string>, text: string)
    ensures FrameKept(items, Set(items, path, text), path, text)
    decreases |path|
  {
    if path != [] {
      var k := Position(items, path[0]);
      var after := Set(items, path, text);
      if |path| > 1 {
        SetKeepsFrame(Inner(items, path[0]), path[1..], text);
      }
      assert ChangedOnlyAt(items, after, path[0], k);
    }
  }

  lemma PutTwice(items: seq<Item>, key: string, first: Value, second: Value)
    ensures Put(Put(items, key, first), key, second) == Put(items, key, second)
  {
    PutPositions(items, key, first, key);
  }

  /** A second set on the same path wins, and leaves the structure one set would. */
  lemma {:induction false} SetTwice(items: seq<Item>, path: seq<string>, first: string, second: string)
    ensures Set(Set(items, path, first), path, second) == Set(items, path, second)
    decreases |path|
  {
    if |path| == 1 {
      PutTwice(items, path[0], Scalar(first), Scalar(second));
    } else if |path| > 1 {
      var inner := Set(Inner(items, path[0]), path[1..], first);
      PutPositions(items, path[0], Mapping(inner), path[0]);
      SetTwice(Inner(items, path[0]), path[1..], first, second);
      PutTwice(items, path[0], Mapping(inner), Mapping(Set(Inner(items, path[0]), path[1..], second)));
    }
  }
}
