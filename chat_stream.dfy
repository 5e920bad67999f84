// aya-frontend-v2/src/app/components/chat-stream/chat-stream.component.ts: the
// overlay's list of displayed messages. A "new" update appends an entry and is
// meant to drop the oldest once there are more than `maxMessages`; "edit" and
// "delete" change the first entry with the same message id in place. The
// timers a new entry starts are events of their own here (`OnInitTimer`,
// `OnTimeOut`, `OnRemoveTimer`), fired with the entry's key or message id.
//
// The trim test reads `this.displayMessages.find.length`: the declared
// parameter count of `Array.prototype.find`, which is 1, not the list's length.
// With `maxMessages` at 100 the test never holds and the list is never trimmed.

module ChatStream {
  import opened Common
  import opened FrontendMessage

  /** `Array.prototype.find.length`: `find` declares one parameter. */
  const FindLength: nat := 1

  /** Which entries a `find` looks for: those of a message id, or the one entry with a key. */
  datatype Target = ById(id: string) | ByKey(key: nat)

  predicate Matches(target: Target, e: DisplayMessage)
  {
    match target
    case ById(id) => e.message.id == id
    case ByKey(key) => e.key == key
  }

  /** The index of the entry `find` returns, -1 when it returns `undefined`. */
  function FindIndex(list: seq<DisplayMessage>, target: Target): (i: int)
    ensures -1 <= i < |list|
    ensures i >= 0 ==> Matches(target, list[i]) && forall k :: 0 <= k < i ==> !Matches(target, list[k])
    ensures i == -1 <==> forall k :: 0 <= k < |list| ==> !Matches(target, list[k])
  {
    if list == [] then -1
    else if Matches(target, list[0]) then 0
    else
      var rest := FindIndex(list[1..], target);
      if rest == -1 then -1 else rest + 1
  }

  /** The field writes made on a found entry. */
  datatype Change = Edited(msg: Message) | Deleted | InitDone | Removed

  function Apply(change: Change, e: DisplayMessage): (r: DisplayMessage)
    ensures r.key == e.key
  {
    match change
    case Edited(msg) => e.(message := msg, edit := true)
    case Deleted => e.(delete := true)
    case InitDone => e.(init := false)
    case Removed => e.(remove := true)
  }

  /** The list after `change` is made on the entry `find` returns for `target`: only the
      first matching entry changes, and nothing changes when none matches. */
  function UpdateFirst(list: seq<DisplayMessage>, target: Target, change: Change): (r: seq<DisplayMessage>)
    ensures |r| == |list|
    ensures forall j :: 0 <= j < |list| && r[j] != list[j] ==>
              Matches(target, list[j]) && forall k :: 0 <= k < j ==> !Matches(target, list[k])
    ensures forall j :: 0 <= j < |list| && Matches(target, list[j]) && (forall k :: 0 <= k < j ==> !Matches(target, list[k])) ==>
              r[j] == Apply(change, list[j])
    ensures forall j :: 0 <= j < |list| ==> r[j].key == list[j].key
  {
    var i := FindIndex(list, target);
    if i == -1 then list else list[i := Apply(change, list[i])]
  }

  /** An edit or delete never adds, drops or reorders entries, and one whose id is shown
      nowhere changes nothing. */
  lemma EditDeleteKeepEntries(list: seq<DisplayMessage>, msg: Message)
    ensures |UpdateFirst(list, ById(msg.id), Edited(msg))| == |list|
    ensures |UpdateFirst(list, ById(msg.id), Deleted)| == |list|
    ensures (forall k :: 0 <= k < |list| ==> list[k].message.id != msg.id) ==>
              UpdateFirst(list, ById(msg.id), Edited(msg)) == list &&
              UpdateFirst(list, ById(msg.id), Deleted) == list
  {
    if forall k :: 0 <= k < |list| ==> list[k].message.id != msg.id {
      assert forall k :: 0 <= k < |list| ==> !Matches(ById(msg.id), list[k]);
    }
  }

  /** A deleted message stays in the list, marked: its entry keeps its message and flags
      other than `delete`. */
  lemma DeleteMarksOnly(list: seq<DisplayMessage>, id: string, j: nat)
    requires j < |list| && list[j].message.id == id
    requires forall k :: 0 <= k < j ==> list[k].message.id != id
    ensures UpdateFirst(list, ById(id), Deleted)[j] == list[j].(delete := true)
    ensures UpdateFirst(list, ById(id), Deleted)[j].message == list[j].message
  {
    assert Matches(ById(id), list[j]);
    assert forall k :: 0 <= k < j ==> !Matches(ById(id), list[k]);
  }

  /** The list after a "new" update as written: the entry appended, then the oldest
      dropped when `find.length` exceeds the cap. */
  function PushAsWritten(list: seq<DisplayMessage>, entry: DisplayMessage, maxMessages: nat): (r: seq<DisplayMessage>)
    ensures maxMessages >= FindLength ==> r == list + [entry]
  {
    var pushed := list + [entry];
    if FindLength > maxMessages then pushed[1..] else pushed
  }

  /** The list after a "new" update as evidently intended: the entry appended, then the
      oldest dropped when the list is longer than the cap. */
  function PushCapped(list: seq<DisplayMessage>, entry: DisplayMessage, maxMessages: nat): (r: seq<DisplayMessage>)
    ensures |list| < maxMessages ==> r == list + [entry]
    ensures 1 <= maxMessages && |list| <= maxMessages ==> |r| <= maxMessages
    ensures r == list + [entry] || (|list| + 1 > maxMessages && r == (list + [entry])[1..])
    ensures |r| >= 1 ==> r[|r| - 1] == entry
    ensures maxMessages >= 1 ==> |r| >= 1
  {
    var pushed := list + [entry];
    if |pushed| > maxMessages then pushed[1..] else pushed
  }

  /** As written, a full list of 100 messages grows to 101 on the next message; with the
      intended trim it stays at 100. */
  lemma NeverTrimmed(list: seq<DisplayMessage>, entry: DisplayMessage)
    requires |list| == 100
    ensures |PushAsWritten(list, entry, 100)| == 101
    ensures |PushCapped(list, entry, 100)| == 100
  {
  }

  /** Entries by strictly increasing key: each entry's key is below `nextKey`. */
  ghost predicate KeysOrdered(list: seq<DisplayMessage>, nextKey: nat)
  {
    (forall i :: 0 <= i < |list| ==> list[i].key < nextKey) &&
    (forall i, j :: 0 <= i < j < |list| ==> list[i].key < list[j].key)
  }

  /** `ChatStreamComponent`'s list state. */
  class ChatStreamComponent {
    var maxMessages: nat
    var displayMessages: seq<DisplayMessage>
    /** The key the next entry gets. */
    var nextKey: nat

    /** Keys stand for distinct objects: no two entries share one, and later entries have
        larger ones. */
    ghost predicate Valid()
      reads this
    {
      KeysOrdered(displayMessages, nextKey)
    }

    /** The cap the list is meant to keep. */
    ghost predicate Capped()
      reads this
    {
      |displayMessages| <= maxMessages
    }

    constructor()
      ensures Valid() && Capped()
      ensures maxMessages == 100 && displayMessages == []
    {
      maxMessages := 100;
      displayMessages := [];
      nextKey := 0;
    }

    /** The "new" case as written: returns the new entry's key, which its timers hold. */
    method PushNew(msg: Message) returns (key: nat)
      requires Valid()
      modifies this
      ensures Valid() && maxMessages == old(maxMessages)
      ensures key == old(nextKey)
      ensures displayMessages == PushAsWritten(old(displayMessages), DisplayMessage(key, msg, false, false, false, true), maxMessages)
    {
      key := nextKey;
      var displayMsg := DisplayMessage(key, msg, false, false, false, true);
      displayMessages := displayMessages + [displayMsg];
      nextKey := nextKey + 1;
      if FindLength > maxMessages {
        displayMessages := displayMessages[1..];
      }
    }

    /** The "new" case with the list's length in the trim test: the cap is kept. */
    method PushNewCorrected(msg: Message) returns (key: nat)
      requires Valid()
      modifies this
      ensures Valid() && maxMessages == old(maxMessages)
      ensures key == old(nextKey)
      ensures displayMessages == PushCapped(old(displayMessages), DisplayMessage(key, msg, false, false, false, true), maxMessages)
      ensures old(Capped()) && maxMessages >= 1 ==> Capped()
    {
      key := nextKey;
      var displayMsg := DisplayMessage(key, msg, false, false, false, true);
      displayMessages := displayMessages + [displayMsg];
      nextKey := nextKey + 1;
      if |displayMessages| > maxMessages {
        displayMessages := displayMessages[1..];
      }
    }

    /** Makes `change` on the entry `find` returns for `target`, if any. */
    method ChangeFirst(target: Target, change: Change)
      requires Valid()
      modifies this
      ensures Valid() && maxMessages == old(maxMessages) && nextKey == old(nextKey)
      ensures displayMessages == UpdateFirst(old(displayMessages), target, change)
      ensures old(Capped()) ==> Capped()
    {
      var i := FindIndex(displayMessages, target);
      if i != -1 {
        displayMessages := displayMessages[i := Apply(change, displayMessages[i])];
      }
    }

    /** `updateMessage` as written, for an update kind of "new", "edit" or "delete" (any
        other kind does nothing). Returns the new entry's key for "new". */
    method UpdateMessage(msg: Message, update: string) returns (key: Option<nat>)
      requires Valid()
      modifies this
      ensures Valid() && maxMessages == old(maxMessages)
      ensures update == "new" ==>
                (key.Some? &&
                 displayMessages == PushAsWritten(old(displayMessages), DisplayMessage(key.value, msg, false, false, false, true), maxMessages))
      ensures update == "edit" ==> displayMessages == UpdateFirst(old(displayMessages), ById(msg.id), Edited(msg))
      ensures update == "delete" ==> displayMessages == UpdateFirst(old(displayMessages), ById(msg.id), Deleted)
      ensures update !in {"new", "edit", "delete"} ==> displayMessages == old(displayMessages)
    {
      key := None;
      if update == "new" {
        var k := PushNew(msg);
        key := Some(k);
      } else if update == "edit" {
        ChangeFirst(ById(msg.id), Edited(msg));
      } else if update == "delete" {
        ChangeFirst(ById(msg.id), Deleted);
      }
    }

    /** `updateMessage` with the corrected trim test: the list never exceeds the cap. */
    method UpdateMessageCorrected(msg: Message, update: string) returns (key: Option<nat>)
      requires Valid()
      modifies this
      ensures Valid() && maxMessages == old(maxMessages)
      ensures update == "new" ==>
                (key.Some? &&
                 displayMessages == PushCapped(old(displayMessages), DisplayMessage(key.value, msg, false, false, false, true), maxMessages))
      ensures update == "edit" ==> displayMessages == UpdateFirst(old(displayMessages), ById(msg.id), Edited(msg))
      ensures update == "delete" ==> displayMessages == UpdateFirst(old(displayMessages), ById(msg.id), Deleted)
      ensures update !in {"new", "edit", "delete"} ==> displayMessages == old(displayMessages)
      ensures old(Capped()) && maxMessages >= 1 ==> Capped()
    {
      key := None;
      if update == "new" {
        var k := PushNewCorrected(msg);
        key := Some(k);
      } else if update == "edit" {
        ChangeFirst(ById(msg.id), Edited(msg));
      } else if update == "delete" {
        ChangeFirst(ById(msg.id), Deleted);
      }
    }

    /** The 5 ms timer of the entry with `key`: its `init` flag is cleared (nothing visible
        when the entry has left the list). */
    method OnInitTimer(key: nat)
      requires Valid()
      modifies this
      ensures Valid() && maxMessages == old(maxMessages) && nextKey == old(nextKey)
      ensures displayMessages == UpdateFirst(old(displayMessages), ByKey(key), InitDone)
      ensures old(Capped()) ==> Capped()
    {
      ChangeFirst(ByKey(key), InitDone);
    }

    /** The `timeOut` timer of the entry with `key`: its `remove` flag is set. */
    method OnTimeOut(key: nat)
      requires Valid()
      modifies this
      ensures Valid() && maxMessages == old(maxMessages) && nextKey == old(nextKey)
      ensures displayMessages == UpdateFirst(old(displayMessages), ByKey(key), Removed)
      ensures old(Capped()) ==> Capped()
    {
      ChangeFirst(ByKey(key), Removed);
    }

    /** The 500 ms timer after the time-out, for a message id: while some entry still shows
        that id, the OLDEST entry is shifted out, whichever message it shows. */
    method OnRemoveTimer(id: string)
      requires Valid()
      modifies this
      ensures Valid() && maxMessages == old(maxMessages) && nextKey == old(nextKey)
      ensures FindIndex(old(displayMessages), ById(id)) == -1 ==> displayMessages == old(displayMessages)
      ensures FindIndex(old(displayMessages), ById(id)) != -1 ==> displayMessages == old(displayMessages)[1..]
      ensures old(Capped()) ==> Capped()
    {
      if FindIndex(displayMessages, ById(id)) != -1 {
        displayMessages := displayMessages[1..];
      }
    }
  }

  /** Keys pick out one entry: a timer's change reaches the entry it was started for and
      no other. */
  lemma TimerReachesOwnEntry(list: seq<DisplayMessage>, nextKey: nat, j: nat, change: Change)
    requires KeysOrdered(list, nextKey) && j < |list|
    ensures UpdateFirst(list, ByKey(list[j].key), change)[j] == Apply(change, list[j])
    ensures forall i :: 0 <= i < |list| && i != j ==> UpdateFirst(list, ByKey(list[j].key), change)[i] == list[i]
  {
    assert Matches(ByKey(list[j].key), list[j]);
    assert forall k :: 0 <= k < |list| && k != j ==> !Matches(ByKey(list[j].key), list[k]);
  }
}
