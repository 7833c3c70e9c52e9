/**
 * The generation history kept by the client in the browser's key-value
 * store (`localStorage`), and the types the generators return. The
 * history is a newest-first list kept under one fixed key and bounded to
 * twenty items.
 */
module Api {
  import opened Wrappers
  import opened Browser

  /** The key the history is stored under. */
  const HistoryKey: string := "sticker-generator-history"

  /** The most items the history keeps. */
  const MaxHistoryItems: nat := 20

  /** What a generator returns: the payload, a local URL for it and, for a premium video, a task id. */
  datatype GenerationResult = GenerationResult(blob: Blob, url: string, taskId: Option<string>)

  /** The `type` of a history item. */
  datatype Category = Sticker | Animation | Video

  /** A history item as the application uses it. */
  datatype HistoryItem = HistoryItem(
    id: string,
    kind: Category,
    subType: string,
    prompt: string,
    thumbnail: string,
    downloadUrl: string,
    taskId: Option<string>,
    timestamp: Date)

  /** What a caller of `addToHistory` supplies: a history item without `id` and `timestamp`. */
  datatype HistoryFields = HistoryFields(
    kind: Category,
    subType: string,
    prompt: string,
    thumbnail: string,
    downloadUrl: string,
    taskId: Option<string>)

  /** A history item as it is serialised: the date is written so that reading it back gives the same time value. */
  datatype StoredItem = StoredItem(
    id: string,
    kind: Category,
    subType: string,
    prompt: string,
    thumbnail: string,
    downloadUrl: string,
    taskId: Option<string>,
    timestamp: int)

  /**
   * A string held by the store, classified by what reading it as a history
   * gives: the empty string, the serialisation of a list of history items,
   * or text that does not parse or is not a list.
   */
  datatype Stored = Empty | Valid(items: seq<StoredItem>) | Malformed

  /** The browser's `localStorage`: a mutable map from keys to stored strings. */
  class LocalStorage {
    var entries: map<string, Stored>

    constructor (initial: map<string, Stored>)
      ensures entries == initial
    {
      entries := initial;
    }
  }

  /** A task id is present when it is neither missing nor the empty string (JavaScript truthiness). */
  predicate Present(taskId: Option<string>) {
    taskId.Some? && taskId.value != ""
  }

  /** The task id of a premium video response: the `x-task-id` header, or none when it is missing or empty. */
  function TaskIdFromHeader(header: Option<string>): (r: Option<string>)
    ensures r.None? <==> header.None? || header.value == ""
    ensures r.Some? ==> r == header && Present(r)
  {
    if header.Some? && header.value != "" then header else None
  }

  /** The result `generatePremiumVideo` builds from a successful response, its task id taken from the `x-task-id` header. */
  function PremiumVideoResult(blob: Blob, url: string, header: Option<string>): (r: GenerationResult)
    ensures r.blob == blob && r.url == url
    ensures Present(r.taskId) <==> header.Some? && header.value != ""
    ensures Present(r.taskId) ==> r.taskId == header
    ensures !Present(r.taskId) ==> r.taskId == None
  {
    GenerationResult(blob, url, TaskIdFromHeader(header))
  }

  function Min(a: int, b: int): int {
    if a <= b then a else b
  }

  /** Writing one item: every field is kept, and reading it back gives the item again. */
  function Serialize(item: HistoryItem): (r: StoredItem)
    ensures Revive(r) == item
  {
    StoredItem(item.id, item.kind, item.subType, item.prompt, item.thumbnail,
               item.downloadUrl, item.taskId, item.timestamp.millis)
  }

  /** Reading one item back: every field is kept, and writing it again gives the stored item. */
  function Revive(item: StoredItem): (r: HistoryItem)
    ensures r.id == item.id && r.taskId == item.taskId && r.timestamp.millis == item.timestamp
  {
    HistoryItem(item.id, item.kind, item.subType, item.prompt, item.thumbnail,
                item.downloadUrl, item.taskId, Date(item.timestamp))
  }

  /** A stored item that is read and written again comes back unchanged. */
  lemma ReviveThenSerialize(item: StoredItem)
    ensures Serialize(Revive(item)) == item
  {
  }

  /** `JSON.stringify` of a history list. */
  function Encode(history: seq<HistoryItem>): (r: seq<StoredItem>)
    ensures |r| == |history|
  {
    seq(|history|, i requires 0 <= i < |history| => Serialize(history[i]))
  }

  /**
   * `getHistory` over the contents of the store: a missing key, an empty
   * string or an unreadable value gives the empty list; a stored list comes
   * back with the same length and order, each item with its date re-wrapped,
   * so that writing it out again gives back exactly what was stored.
   */
  function GetHistory(entries: map<string, Stored>): (r: seq<HistoryItem>)
    ensures HistoryKey !in entries ==> r == []
    ensures HistoryKey in entries && !entries[HistoryKey].Valid? ==> r == []
    ensures HistoryKey in entries && entries[HistoryKey].Valid? ==>
      var items := entries[HistoryKey].items;
      && |r| == |items|
      && Encode(r) == items
      && forall i :: 0 <= i < |r| ==> r[i].id == items[i].id && r[i].timestamp == Date(items[i].timestamp)
  {
    if HistoryKey !in entries then []
    else match entries[HistoryKey]
      case Empty => []
      case Malformed => []
      case Valid(items) =>
        var r := seq(|items|, i requires 0 <= i < |items| => Revive(items[i]));
        assert Encode(r) == items;
        r
  }

  /** Reading a history just written gives back that history. */
  lemma ReadAfterWrite(entries: map<string, Stored>, history: seq<HistoryItem>)
    ensures GetHistory(entries[HistoryKey := Valid(Encode(history))]) == history
  {
    var r := GetHistory(entries[HistoryKey := Valid(Encode(history))]);
    assert forall i :: 0 <= i < |r| ==> r[i] == Revive(Serialize(history[i]));
  }

  /** The fields a caller supplied for an item. */
  function Fields(item: HistoryItem): HistoryFields {
    HistoryFields(item.kind, item.subType, item.prompt, item.thumbnail, item.downloadUrl, item.taskId)
  }

  /** The item `addToHistory` creates: the supplied fields plus a fresh id and the current time. */
  function NewItem(fields: HistoryFields, id: string, now: Date): (r: HistoryItem)
    ensures Fields(r) == fields
    ensures r.id == id && r.timestamp == now
  {
    HistoryItem(id, fields.kind, fields.subType, fields.prompt, fields.thumbnail,
                fields.downloadUrl, fields.taskId, now)
  }

  /**
   * `[newItem, ...history].slice(0, MAX_HISTORY_ITEMS)`: the new item first,
   * then the previous items in their order, at most twenty in all, so a
   * full history loses its oldest item.
   */
  function Prepend(history: seq<HistoryItem>, item: HistoryItem): (r: seq<HistoryItem>)
    ensures |r| == Min(|history| + 1, MaxHistoryItems)
    ensures r[0] == item
    ensures forall i :: 1 <= i < |r| ==> r[i] == history[i - 1]
    ensures |history| >= MaxHistoryItems ==> r == [item] + history[..MaxHistoryItems - 1]
    ensures |history| < MaxHistoryItems ==> r == [item] + history
  {
    ([item] + history)[..Min(|history| + 1, MaxHistoryItems)]
  }

  /** The store after `addToHistory`: only the history key changes, and it holds the prepended list. */
  function AddedStore(entries: map<string, Stored>, fields: HistoryFields, id: string, now: Date): (r: map<string, Stored>)
    ensures r.Keys == entries.Keys + {HistoryKey}
    ensures forall k :: k in entries && k != HistoryKey ==> r[k] == entries[k]
    ensures GetHistory(r) == Prepend(GetHistory(entries), NewItem(fields, id, now))
  {
    var updated := Prepend(GetHistory(entries), NewItem(fields, id, now));
    ReadAfterWrite(entries, updated);
    entries[HistoryKey := Valid(Encode(updated))]
  }

  /** The store after `clearHistory`: the history key is gone, every other key is kept, and the history reads as empty. */
  function ClearedStore(entries: map<string, Stored>): (r: map<string, Stored>)
    ensures r.Keys == entries.Keys - {HistoryKey}
    ensures forall k :: k in r ==> r[k] == entries[k]
    ensures GetHistory(r) == []
  {
    entries - {HistoryKey}
  }

  /** `addToHistory`: read the history, prepend the new item, keep twenty, write it back. */
  method AddToHistory(storage: LocalStorage, fields: HistoryFields, id: string, now: Date)
    modifies storage
    ensures storage.entries == AddedStore(old(storage.entries), fields, id, now)
  {
    var history := GetHistory(storage.entries);
    var newItem := NewItem(fields, id, now);
    var updated := Prepend(history, newItem);
    storage.entries := storage.entries[HistoryKey := Valid(Encode(updated))];
  }

  /** `clearHistory`: remove the history key. */
  method ClearHistory(storage: LocalStorage)
    modifies storage
    ensures storage.entries == ClearedStore(old(storage.entries))
  {
    storage.entries := storage.entries - {HistoryKey};
  }

  /** On a store without a readable history, adding gives exactly the one new item. */
  lemma AddToUnreadableStore(entries: map<string, Stored>, fields: HistoryFields, id: string, now: Date)
    requires HistoryKey !in entries || !entries[HistoryKey].Valid?
    ensures GetHistory(AddedStore(entries, fields, id, now)) == [NewItem(fields, id, now)]
  {
  }

  /** After clearing, adding behaves as on a store that never held a history. */
  lemma AddAfterClear(entries: map<string, Stored>, fields: HistoryFields, id: string, now: Date)
    ensures GetHistory(AddedStore(ClearedStore(entries), fields, id, now))
         == GetHistory(AddedStore(map[], fields, id, now))
         == [NewItem(fields, id, now)]
  {
  }

  /** The ids of a history are pairwise distinct. */
  predicate DistinctIds(history: seq<HistoryItem>) {
    forall i, j :: 0 <= i < j < |history| ==> history[i].id != history[j].id
  }

  /** A fresh id keeps the ids of the history distinct. */
  lemma FreshIdKeepsIdsDistinct(history: seq<HistoryItem>, fields: HistoryFields, id: string, now: Date)
    requires DistinctIds(history)
    requires forall i :: 0 <= i < |history| ==> history[i].id != id
    ensures DistinctIds(Prepend(history, NewItem(fields, id, now)))
  {
  }

  /** The history after adding `items` one after the other, first to last. */
  function AddedInOrder(history: seq<HistoryItem>, items: seq<HistoryItem>): seq<HistoryItem>
    decreases |items|
  {
    if items == [] then history else AddedInOrder(Prepend(history, items[0]), items[1..])
  }

  /**
   * After any sequence of additions the history holds the most recent
   * twenty items, newest first, followed by what was there before.
   */
  lemma {:induction false} AddedInOrderNewestFirst(history: seq<HistoryItem>, items: seq<HistoryItem>)
    requires |history| <= MaxHistoryItems
    ensures var r := AddedInOrder(history, items);
      && |r| == Min(|history| + |items|, MaxHistoryItems)
      && forall i :: 0 <= i < |r| ==>
           r[i] == if i < |items| then items[|items| - 1 - i] else history[i - |items|]
    decreases |items|
  {
    if items != [] {
      var next := Prepend(history, items[0]);
      AddedInOrderNewestFirst(next, items[1..]);
      assert Min(|next| + |items| - 1, MaxHistoryItems) == Min(|history| + |items|, MaxHistoryItems);
    }
  }

  /** Twenty-five additions to an empty history leave twenty items, the last one added first. */
  lemma TwentyFiveAdditions(items: seq<HistoryItem>)
    requires |items| == 25
    ensures |AddedInOrder([], items)| == 20
    ensures AddedInOrder([], items)[0].id == items[24].id
  {
    AddedInOrderNewestFirst([], items);
  }
}
