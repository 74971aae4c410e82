/** The key table: a node per live key, with the ready list threaded through the nodes. */
module KeyedTable {
  import opened Common
  import opened KeyedExecutor
  import opened KeyedList
  import opened KeyedSafety

  lemma Unlinked(order: seq<KeyNode>, left: seq<KeyNode>, node: KeyNode)
    requires Distinct(Names(order))
    requires exists i :: 0 <= i < |order| && order[i] == node && left == order[..i] + order[i + 1..]
    ensures Names(left) == Without(Names(order), node.name)
  {
    var i :| 0 <= i < |order| && order[i] == node && left == order[..i] + order[i + 1..];
    WithoutAt(Names(order), i);
    hide Distinct, Without;
    var names := Names(order);
    assert |Names(left)| == |names[..i] + names[i + 1..]|;
    assert forall j :: 0 <= j < |left| ==> Names(left)[j] == (names[..i] + names[i + 1..])[j];
  }

  class KeyTable {
    const list: ReadyList
    var keys: map<Key, KeyNode>
    ghost var nodes: set<KeyNode>

    constructor ()
      ensures Valid() && Slots() == map[] && nodes == {} && ReadyKeys() == [] && fresh(list)
    {
      list := new ReadyList();
      keys, nodes := map[], {};
    }

    ghost predicate Holds(node: KeyNode)
      reads this`keys, this`nodes
    {
      node in nodes && node.name in keys && keys[node.name] == node
    }

    /** Each key has its own node, and the linked list holds exactly the nodes flagged ready. */
    ghost predicate Valid()
      reads this`keys, this`nodes, list, list.nodes`ready, list.nodes`previous, list.nodes`next, nodes`ready
    {
      && list.Valid()
      && (forall n :: n in list.nodes ==> Holds(n))
      && (forall k :: k in keys ==> keys[k] in nodes && keys[k].name == k && (keys[k].ready <==> keys[k] in list.nodes))
    }

    ghost function Slots(): (r: map<Key, Slot>)
      reads this`keys, keys.Values
      ensures r.Keys == keys.Keys && forall k :: k in r ==> r[k] == keys[k].Contents()
    {
      map k | k in keys :: keys[k].Contents()
    }

    /** The keys in list order. */
    ghost function ReadyKeys(): seq<Key>
      reads list
    {
      Names(list.order)
    }

    lemma ListFacts(node: KeyNode)
      requires Valid() && Holds(node)
      ensures list.Valid() && list.nodes <= nodes && (node.ready <==> node in list.nodes) && Distinct(ReadyKeys())
    {
      forall i, j | 0 <= i < j < |list.order| ensures ReadyKeys()[i] != ReadyKeys()[j] {
        assert list.Linked(i) && list.Linked(j);
      }
    }

    /** One node was flagged, linked or unlinked. */
    twostate lemma Relisted(node: KeyNode)
      requires old(Valid()) && Holds(node) && keys == old(keys) && nodes == old(nodes)
      requires list.Valid() && (node.ready <==> node in list.nodes)
      requires list.nodes <= old(list.nodes) + {node} && old(list.nodes) <= list.nodes + {node}
      requires forall n :: n in nodes && n != node ==> n.ready == old(n.ready)
      ensures Valid()
    {
      forall j | j in keys ensures keys[j] in nodes && (keys[j].ready <==> keys[j] in list.nodes) {
        assert old(keys[j] in nodes && (keys[j].ready <==> keys[j] in list.nodes));
      }
    }

    /** One node's slot changed. */
    twostate lemma Changed(node: KeyNode)
      requires old(Valid()) && Holds(node) && keys == old(keys) && nodes == old(nodes)
      requires forall n :: n in nodes && n != node ==> n.Contents() == old(n.Contents())
      ensures Slots() == old(Slots())[node.name := node.Contents()]
    {
    }

    /** A key is listed exactly when it is idle, unlisted and has work. */
    method List(node: KeyNode)
      requires Valid() && Holds(node)
      modifies list, nodes`ready, nodes`previous, nodes`next
      ensures Valid()
      ensures var slot := old(Slots())[node.name]; var added := !slot.ready && !slot.busy && slot.queued != [];
        && Slots() == (if added then old(Slots())[node.name := slot.(ready := true)] else old(Slots()))
        && ReadyKeys() == old(ReadyKeys()) + (if added then [node.name] else [])
    {
      ListFacts(node);
      list.Enqueue(node);
      Relisted(node);
      Changed(node);
    }

    method Unlist(node: KeyNode)
      requires Valid() && Holds(node)
      modifies list, nodes`ready, nodes`previous, nodes`next
      ensures Valid() && !node.ready
      ensures var slot := old(Slots())[node.name];
        && Slots() == (if slot.ready then old(Slots())[node.name := slot.(ready := false)] else old(Slots()))
        && ReadyKeys() == (if slot.ready then Without(old(ReadyKeys()), node.name) else old(ReadyKeys()))
    {
      ListFacts(node);
      list.RemoveReady(node);
      if old(node.ready) { Unlinked(old(list.order), list.order, node); }
      Relisted(node);
      Changed(node);
    }

    /** The first listed node. */
    method Head() returns (node: KeyNode)
      requires Valid() && ReadyKeys() != []
      ensures Holds(node) && node.name == ReadyKeys()[0]
    {
      assert list.Linked(0);
      node := list.readyHead;
    }

    /** The key's node, made when there is none. */
    method NodeOf(k: Key) returns (node: KeyNode)
      requires Valid()
      modifies this
      ensures Valid() && Holds(node) && node.name == k && old(nodes) <= nodes && fresh(nodes - old(nodes))
      ensures Slots() == old(Slots())[k := if k in old(Slots()) then old(Slots())[k] else Slot([], 0, 0, false, false, None)]
    {
      if k in keys {
        node := keys[k];
        return;
      }
      node := new KeyNode(k);
      nodes := nodes + {node};
      keys := keys[k := node];
    }

    /** A key leaves the table once its node is off the list. */
    method Erase(k: Key)
      requires Valid() && k in keys && !keys[k].ready
      modifies this`keys
      ensures Valid() && Slots() == old(Slots()) - {k}
    {
      keys := keys - {k};
    }

    /** A node's record is replaced; its place in the list is not. */
    method Update(node: KeyNode, record: Record)
      requires Valid() && Holds(node)
      modifies node`record
      ensures Valid() && node.record == record
      ensures Slots() == old(Slots())[node.name := Slot(record.queued, record.outstanding, record.bytes, record.busy, node.ready, record.holder)]
    {
      node.record := record;
      Changed(node);
    }
  }
}
