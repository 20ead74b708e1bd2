/**
 * The chat view: the object that owns the batching state, the set of reuse
 * identifiers already registered with the list view, and the context-menu
 * dispatch. Every mutator is a begin, an enqueue and a commit; a commit that
 * drains returns the drained items (the replay against the store and the list
 * view is not part of this model).
 */
module ChatView {
  import opened Wrappers
  import opened ChatIdentity
  import opened ChatBatch

  /** The context-menu actions the list view asks about: the selectors `copy:`, `paste:`, `delete:`, and any other selector. */
  datatype MenuAction = Copy | Paste | Delete | OtherAction

  /** The menu offers copy, paste and delete, and nothing else. */
  function CanPerformAction(a: MenuAction): (ok: bool)
    ensures ok <==> !a.OtherAction?
  {
    if a == Copy then true
    else if a == Paste then true
    else if a == Delete then true
    else false
  }

  /**
   * The update item a menu action requests for the item at `item`, with
   * `count` messages in the store: delete removes it, paste moves it to the
   * last position, copy and every other action request nothing.
   */
  function MenuRequest(a: MenuAction, item: int, count: int): (r: Option<UpdateItem>)
    ensures r.Some? ==> CanPerformAction(a) && a != Copy
    ensures a == Delete ==> r == Some(Remove(item))
    ensures a == Paste ==> r == Some(Move(item, count - 1))
    ensures a != Delete && a != Paste ==> r == None
  {
    match a
    case Delete => Some(Remove(item))
    case Paste => Some(Move(item, count - 1))
    case _ => None
  }

  class ChatView {
    /** The pending update items, in enqueue order. */
    var batchItems: seq<UpdateItem>
    /** How many begins are still waiting for their commit. */
    var batchRequiredCount: int
    /** The message store as the last replay left it. */
    var store: seq<Message>
    /** Reuse identifiers already registered with the list view. */
    var registeredTypes: set<string>
    /** Every register call made on the list view, in order. */
    var registrations: seq<string>

    ghost predicate Valid()
      reads this
    {
      batchRequiredCount >= 0 &&
      (forall i, j :: 0 <= i < j < |registrations| ==> registrations[i] != registrations[j]) &&
      (forall id :: id in registeredTypes <==> id in registrations)
    }

    /** The batching state held in the two fields. */
    function Pending(): Batch
      reads this
    {
      Batch(batchRequiredCount, batchItems)
    }

    constructor (store: seq<Message>)
      ensures Valid()
      ensures Pending() == Idle && this.store == store
      ensures registeredTypes == {} && registrations == []
    {
      batchItems := [];
      batchRequiredCount := 0;
      this.store := store;
      registeredTypes := {};
      registrations := [];
    }

    method BatchBegin()
      requires Valid()
      modifies this`batchRequiredCount
      ensures Valid()
      ensures Pending() == Begin(old(Pending()))
    {
      batchRequiredCount := Max(batchRequiredCount + 1, 1);
    }

    method BatchCommit() returns (drained: Option<seq<UpdateItem>>)
      requires Valid()
      modifies this`batchRequiredCount, this`batchItems
      ensures Valid()
      ensures Committed(Pending(), drained) == Commit(old(Pending()))
    {
      batchRequiredCount := Max(batchRequiredCount - 1, 0);
      if batchRequiredCount != 0 {
        return None;
      }
      var items := batchItems;
      batchItems := [];
      drained := Some(items);
    }

    method Insert(newMessage: Message, index: int) returns (drained: Option<seq<UpdateItem>>)
      requires Valid()
      modifies this`batchRequiredCount, this`batchItems
      ensures Valid()
      ensures Committed(Pending(), drained) == Call(old(Pending()), [UpdateItem.Insert(newMessage, index)])
    {
      BatchBegin();
      batchItems := batchItems + [UpdateItem.Insert(newMessage, index)];
      drained := BatchCommit();
    }

    method InsertContents(newMessages: seq<Message>, index: int) returns (drained: Option<seq<UpdateItem>>)
      requires Valid()
      modifies this`batchRequiredCount, this`batchItems
      ensures Valid()
      ensures Committed(Pending(), drained) == Call(old(Pending()), InsertAll(newMessages, index))
    {
      BatchBegin();
      batchItems := batchItems + InsertAll(newMessages, index);
      drained := BatchCommit();
    }

    method Update(newMessage: Message, index: int) returns (drained: Option<seq<UpdateItem>>)
      requires Valid()
      modifies this`batchRequiredCount, this`batchItems
      ensures Valid()
      ensures Committed(Pending(), drained) == Call(old(Pending()), [UpdateItem.Update(newMessage, index)])
    {
      BatchBegin();
      batchItems := batchItems + [UpdateItem.Update(newMessage, index)];
      drained := BatchCommit();
    }

    method Remove(index: int) returns (drained: Option<seq<UpdateItem>>)
      requires Valid()
      modifies this`batchRequiredCount, this`batchItems
      ensures Valid()
      ensures Committed(Pending(), drained) == Call(old(Pending()), [UpdateItem.Remove(index)])
    {
      BatchBegin();
      batchItems := batchItems + [UpdateItem.Remove(index)];
      drained := BatchCommit();
    }

    method RemoveContents(indices: seq<int>) returns (drained: Option<seq<UpdateItem>>)
      requires Valid()
      modifies this`batchRequiredCount, this`batchItems
      ensures Valid()
      ensures Committed(Pending(), drained) == Call(old(Pending()), RemoveAll(indices))
    {
      BatchBegin();
      batchItems := batchItems + RemoveAll(indices);
      drained := BatchCommit();
    }

    method Move(index1: int, index2: int) returns (drained: Option<seq<UpdateItem>>)
      requires Valid()
      modifies this`batchRequiredCount, this`batchItems
      ensures Valid()
      ensures Committed(Pending(), drained) == Call(old(Pending()), [UpdateItem.Move(index1, index2)])
    {
      BatchBegin();
      batchItems := batchItems + [UpdateItem.Move(index1, index2)];
      drained := BatchCommit();
    }

    /** Appending inserts at the store's current count. */
    method Append(newMessage: Message) returns (drained: Option<seq<UpdateItem>>)
      requires Valid()
      modifies this`batchRequiredCount, this`batchItems
      ensures Valid()
      ensures Committed(Pending(), drained) == Call(old(Pending()), [UpdateItem.Insert(newMessage, |store|)])
    {
      drained := Insert(newMessage, |store|);
    }

    method AppendContents(newMessages: seq<Message>) returns (drained: Option<seq<UpdateItem>>)
      requires Valid()
      modifies this`batchRequiredCount, this`batchItems
      ensures Valid()
      ensures Committed(Pending(), drained) == Call(old(Pending()), InsertAll(newMessages, |store|))
    {
      drained := InsertContents(newMessages, |store|);
    }

    /**
     * Producing the cell for the item at `index`: its reuse identifier is
     * registered with the list view the first time it is seen, and only then;
     * the cell is dequeued under that identifier, which is returned.
     */
    method CellForItem(index: int) returns (identifier: string)
      requires Valid()
      requires 0 <= index < |store|
      modifies this`registeredTypes, this`registrations
      ensures Valid()
      ensures identifier == ReuseIdentifier(store[index])
      ensures registeredTypes == old(registeredTypes) + {identifier}
      ensures registrations ==
              if identifier in old(registeredTypes) then old(registrations)
              else old(registrations) + [identifier]
    {
      var message := store[index];
      identifier := ReuseIdentifier(message);
      if identifier !in registeredTypes {
        registeredTypes := registeredTypes + {identifier};
        registrations := registrations + [identifier];
      }
    }

    /** Context-menu dispatch: delete removes the item, paste moves it to the end, copy does nothing. */
    method PerformAction(action: MenuAction, item: int) returns (drained: Option<seq<UpdateItem>>)
      requires Valid()
      modifies this`batchRequiredCount, this`batchItems
      ensures Valid()
      ensures MenuRequest(action, item, |store|).None? ==> Pending() == old(Pending()) && drained == None
      ensures MenuRequest(action, item, |store|).Some? ==>
              Committed(Pending(), drained) == Call(old(Pending()), [MenuRequest(action, item, |store|).value])
    {
      drained := None;
      if action == Delete {
        drained := Remove(item);
      }
      if action == Paste {
        drained := Move(item, |store| - 1);
      }
    }
  }

  /**
   * A caller holds a batch open while three messages are inserted at index 0
   * by two mutator calls: neither call drains, and the outer commit drains the
   * three inserts once each, in the order they were enqueued.
   */
  method CoalescedInserts(m1: Message, m2: Message, m3: Message)
    returns (inner1: Option<seq<UpdateItem>>, inner2: Option<seq<UpdateItem>>, drained: Option<seq<UpdateItem>>)
    ensures inner1 == None && inner2 == None
    ensures drained == Some([UpdateItem.Insert(m1, 0), UpdateItem.Insert(m2, 0), UpdateItem.Insert(m3, 0)])
  {
    var view := new ChatView([]);
    view.BatchBegin();
    assert view.Pending() == Batch(1, []);
    inner1 := view.Insert(m1, 0);
    assert view.Pending() == Batch(1, [UpdateItem.Insert(m1, 0)]);
    inner2 := view.InsertContents([m2, m3], 0);
    assert InsertAll([m2, m3], 0) == [UpdateItem.Insert(m2, 0), UpdateItem.Insert(m3, 0)];
    assert view.Pending() == Batch(1, [UpdateItem.Insert(m1, 0), UpdateItem.Insert(m2, 0), UpdateItem.Insert(m3, 0)]);
    drained := view.BatchCommit();
  }
}
