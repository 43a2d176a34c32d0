/** The registry of input buffers with replied blocks that are not on the disk yet, per part. */
module RepliedRegistry {
  import opened Common
  import opened InputBuffers

  /** A registered buffer: its identity, the writes replied so far, and the version its session writes at. */
  datatype Item = Item(buffer: nat, infos: seq<WriteInfo>, version: Option<nat>)

  /** The first reply appends the buffer; a later one brings its writes up to date. */
  function Inserted(items: seq<Item>, buffer: nat, infos: seq<WriteInfo>, version: Option<nat>,
      isFirstReply: bool): seq<Item> {
    if isFirstReply then items + [Item(buffer, infos, version)]
    else
      seq(|items|, i requires 0 <= i < |items| => if items[i].buffer == buffer then items[i].(infos := infos)
          else items[i])
  }

  function Without(items: seq<Item>, buffer: nat): (r: seq<Item>)
    ensures forall i :: 0 <= i < |r| ==> r[i].buffer != buffer
  {
    if items == [] then []
    else if items[|items| - 1].buffer == buffer then Without(items[..|items| - 1], buffer)
    else Without(items[..|items| - 1], buffer) + [items[|items| - 1]]
  }

  /** A buffer is registered once at most. */
  ghost predicate Unique(items: seq<Item>) {
    forall i, j :: 0 <= i < j < |items| ==> items[i].buffer != items[j].buffer
  }

  lemma {:induction false} WithoutOthers(items: seq<Item>, buffer: nat)
    requires forall i :: 0 <= i < |items| ==> items[i].buffer != buffer
    ensures Without(items, buffer) == items
  {
    if items != [] {
      var n := |items| - 1;
      WithoutOthers(items[..n], buffer);
      assert items == items[..n] + [items[n]];
    }
  }

  /** Taking a buffer out keeps all others, in their order. */
  lemma {:induction false} WithoutKeepsOthers(items: seq<Item>, buffer: nat, k: nat)
    requires Unique(items) && k < |items| && items[k].buffer == buffer
    ensures Without(items, buffer) == items[..k] + items[k + 1..]
  {
    var n := |items| - 1;
    if k == n {
      WithoutOthers(items[..n], buffer);
      assert items[..k] + items[k + 1..] == items[..n];
    } else {
      WithoutKeepsOthers(items[..n], buffer, k);
      assert items[..n][..k] == items[..k] && items[..n][k + 1..] + [items[n]] == items[k + 1..];
    }
  }

  class Registry {
    var entries: map<nat, seq<Item>>

    /** No part has an empty list, and no list names a buffer twice. */
    ghost predicate Valid()
      reads this
    {
      forall part :: part in entries ==> entries[part] != [] && Unique(entries[part])
    }

    function Of(part: nat): seq<Item>
      reads this
    {
      if part in entries then entries[part] else []
    }

    /** The first reply registers the buffer behind all others of the part; a later one brings its writes up to date,
        if the buffer is still registered. */
    method Insert(part: nat, version: Option<nat>, buffer: nat, infos: seq<WriteInfo>, isFirstReply: bool)
      requires Valid() && (isFirstReply ==> forall i :: 0 <= i < |Of(part)| ==> Of(part)[i].buffer != buffer)
      modifies this
      ensures Valid() && entries.Keys == old(entries.Keys) + (if isFirstReply then {part} else {})
      ensures forall p :: p in entries && p != part ==> entries[p] == old(entries)[p]
      ensures Of(part) == Inserted(old(Of(part)), buffer, infos, version, isFirstReply)
    {
      if isFirstReply {
        entries := entries[part := Of(part) + [Item(buffer, infos, version)]];
        return;
      }
      if part !in entries {
        return;
      }
      var items, i := entries[part], 0;
      while i < |items|
        invariant 0 <= i <= |items| && forall j :: 0 <= j < i ==> items[j].buffer != buffer
      {
        if items[i].buffer == buffer {
          entries := entries[part := items[i := items[i].(infos := infos)]];
          return;
        }
        i := i + 1;
      }
    }

    method Remove(part: nat, buffer: nat)
      requires Valid()
      modifies this
      ensures Valid() && Of(part) == Without(old(Of(part)), buffer) && (part in entries <==> Of(part) != [])
      ensures forall p :: p != part ==>
          (p in entries <==> p in old(entries)) && (p in entries ==> entries[p] == old(entries)[p])
    {
      if part !in entries {
        return;
      }
      var items, kept, i := entries[part], [], 0;
      while i < |items|
        invariant 0 <= i <= |items| && kept == Without(items[..i], buffer)
      {
        assert items[..i + 1][..i] == items[..i];
        if items[i].buffer != buffer {
          kept := kept + [items[i]];
        }
        i := i + 1;
      }
      assert items[..i] == items;
      WithoutIsUnique(items, buffer);
      if kept == [] {
        entries := entries - {part};
      } else {
        entries := entries[part := kept];
      }
    }
  }

  lemma WithoutIsUnique(items: seq<Item>, buffer: nat)
    requires Unique(items)
    ensures Unique(Without(items, buffer))
  {
    if k :| 0 <= k < |items| && items[k].buffer == buffer {
      WithoutKeepsOthers(items, buffer, k);
    } else {
      WithoutOthers(items, buffer);
    }
  }
}
