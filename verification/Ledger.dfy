/** Event lists that are shared and appended to in place, and the receipt ledger that must not share them. */
module Ledger {
  import opened Domain
  import opened CoreModel

  /** Who a list was made for: a task that appends to it, the ledger, or a caller. */
  datatype Role = Live(task: Uuid) | Archived | HandedOut

  /**
   * A list of events, as an object. Its role is fixed when it is made and exists for the proof only: objects with
   * different roles are different objects.
   */
  class EventList {
    ghost const role: Role
    var items: seq<Event>

    constructor (items: seq<Event>, ghost role: Role)
      ensures this.items == items && this.role == role
    {
      this.items := items;
      this.role := role;
    }

    method Append(event: Event)
      modifies this
      ensures items == old(items) + [event]
    {
      items := items + [event];
    }
  }

  type TaskView = TaskOf<EventList>

  type StoredReceipt = ReceiptOf<EventList>

  function TaskValue(t: TaskView): Task
    reads t.events
  {
    t.With(t.events.items)
  }

  function ReceiptValue(r: StoredReceipt): Receipt
    reads r.events
  {
    r.With(r.events.items)
  }

  /** A stored history that holds lists of the archive only, and its value. */
  ghost predicate HistoryMatches(h: seq<StoredReceipt>, value: seq<Receipt>, archive: set<EventList>)
    reads archive
  {
    && |h| == |value|
    && forall i :: 0 <= i < |h| ==> h[i].events in archive && ReceiptValue(h[i]) == value[i]
  }

  lemma HistoryMatchesMore(
    h: seq<StoredReceipt>, value: seq<Receipt>, archive: set<EventList>, r: StoredReceipt, v: Receipt)
    requires HistoryMatches(h, value, archive)
    ensures HistoryMatches(h, value, archive + {r.events})
    ensures ReceiptValue(r) == v ==> HistoryMatches(h + [r], value + [v], archive + {r.events})
  {
  }

  lemma HistoriesMatchMore(
    receipts: map<Uuid, seq<StoredReceipt>>, contents: map<Uuid, seq<Receipt>>, archive: set<EventList>,
    r: StoredReceipt, v: Receipt)
    requires receipts.Keys == contents.Keys
    requires forall k :: k in receipts ==> HistoryMatches(receipts[k], contents[k], archive)
    ensures forall k :: k in receipts ==> HistoryMatches(receipts[k], contents[k], archive + {r.events})
    ensures ReceiptValue(r) == v ==>
              forall k :: k in receipts ==>
                            HistoryMatches(receipts[k] + [r], contents[k] + [v], archive + {r.events})
  {
    forall k | k in receipts
      ensures HistoryMatches(receipts[k], contents[k], archive + {r.events})
      ensures ReceiptValue(r) == v ==>
                HistoryMatches(receipts[k] + [r], contents[k] + [v], archive + {r.events})
    {
      HistoryMatchesMore(receipts[k], contents[k], archive, r, v);
    }
  }

  lemma CopyKeepsValue(r: StoredReceipt, copy: EventList)
    requires copy.items == r.events.items
    ensures ReceiptValue(r.With(copy)) == ReceiptValue(r)
    ensures r.With(copy).events == copy
  {
  }

  datatype LedgerError = ReceiptVersionMismatch(given: nat, expected: nat)

  /** Append-only receipts by task. A receipt is copied when it comes in and when it goes out. */
  class InMemoryActionLedger {
    var receipts: map<Uuid, seq<StoredReceipt>>
    /** The receipts as values, and the lists they hold. */
    ghost var contents: map<Uuid, seq<Receipt>>
    ghost var archive: set<EventList>

    /** Every stored receipt has a list of the ledger's own, and is worth what the contents say. */
    ghost predicate Valid()
      reads this, archive
    {
      && (forall l :: l in archive ==> l.role == Archived)
      && receipts.Keys == contents.Keys
      && (forall id :: id in receipts ==> HistoryMatches(receipts[id], contents[id], archive))
    }

    constructor ()
      ensures Valid() && contents == map[] && archive == {}
    {
      receipts, contents, archive := map[], map[], {};
    }

    /**
     * Adds a copy of the receipt if it carries the next version. A refused receipt leaves the histories as they are,
     * but its task then has one, if only an empty one.
     */
    method Append(receipt: StoredReceipt) returns (r: Result<(), LedgerError>)
      requires Valid()
      modifies this
      ensures Valid() && fresh(archive - old(archive))
      ensures r.Success? <==> receipt.version == |History(old(contents), receipt.taskId)| + 1
      ensures contents == old(contents)[
                            receipt.taskId :=
                              History(old(contents), receipt.taskId)
                              + if r.Success? then [old(ReceiptValue(receipt))] else []]
    {
      hide ReceiptValue, ReceiptOf.With;
      var id := receipt.taskId;
      var history := History(receipts, id);
      ghost var known, value, before := History(contents, id), ReceiptValue(receipt), archive;
      assert HistoryMatches(history, known, before);
      var expected := |history| + 1;
      if receipt.version != expected {
        // The lookup has already made an entry for the task.
        receipts, contents := receipts[id := history], contents[id := known];
        assert known + [] == known;
        return Failure(ReceiptVersionMismatch(receipt.version, expected));
      }
      var copy := new EventList(receipt.events.items, Archived);
      var stored := receipt.With(copy);
      CopyKeepsValue(receipt, copy);
      HistoriesMatchMore(receipts, contents, before, stored, value);
      receipts, contents := receipts[id := history + [stored]], contents[id := known + [value]];
      archive := before + {copy};
      r := Success(());
    }

    /** A copy of the newest receipt. */
    method Get(task: Uuid) returns (r: Option<StoredReceipt>)
      requires Valid()
      ensures r.None? <==> History(contents, task) == []
      ensures r.Some? ==>
                && fresh(r.value.events) && r.value.events.role == HandedOut
                && var h := History(contents, task);
                   |h| > 0 && ReceiptValue(r.value) == h[|h| - 1]
    {
      var history := History(receipts, task);
      if history == [] {
        return None;
      }
      var newest := history[|history| - 1];
      var copy := new EventList(newest.events.items, HandedOut);
      r := Some(newest.With(copy));
    }

    /** Copies of all receipts of a task, oldest first. */
    method GetHistory(task: Uuid) returns (copies: seq<StoredReceipt>)
      requires Valid()
      ensures |copies| == |History(contents, task)|
      ensures forall i :: 0 <= i < |copies| ==>
                            && fresh(copies[i].events) && copies[i].events.role == HandedOut
                            && ReceiptValue(copies[i]) == History(contents, task)[i]
    {
      var history := History(receipts, task);
      copies := [];
      for i := 0 to |history|
        invariant |copies| == i
        invariant Valid()
        invariant forall j :: 0 <= j < i ==>
                                && fresh(copies[j].events) && copies[j].events.role == HandedOut
                                && ReceiptValue(copies[j]) == History(contents, task)[j]
      {
        var copy := new EventList(history[i].events.items, HandedOut);
        copies := copies + [history[i].With(copy)];
      }
    }
  }
}
