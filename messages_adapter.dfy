/** The chat timeline adapter: classifies each stored message into a row
    type, derives the per-row flags (tail, first unread, checked, original
    text), keeps the selection and original-text toggle lists, and turns
    store change callbacks into redraw and listener notifications. */
module Messages {
  import opened Basics
  import opened MessageItems

  /** RecyclerView.NO_POSITION. */
  const NoPosition: int := -1

  const ViewTypeIncoming: int := 2
  const ViewTypeOutgoing: int := 3
  const ViewTypeAction: int := 4

  /** What the adapter tells the outside world, in the order it does so:
      the RecyclerView redraw requests and the listener callbacks. */
  datatype Event =
    | DataSetChanged                           // notifyDataSetChanged()
    | ItemChanged(position: int)               // notifyItemChanged(position)
    | MessagesUpdated                          // listener.onMessagesUpdated()
    | MessageNumberChanged(prevItemCount: int) // listener.onMessageNumberChanged(prev)
    | CheckedItemsChanged(count: int)          // listener.onChangeCheckedItems(count)
    | MessageClicked(position: int)            // messageListener.onMessageClick(caller, position)

  /** The decisions onBindViewHolder takes for one row before handing it to
      the row's view holder. */
  datatype RowBinding = RowBinding(
    viewType: int,
    item: MessageItem,
    unread: bool,            // this row is the first unread one
    checked: bool,           // selected in check mode
    showOriginalText: bool,  // show the original (undecrypted) text
    needTail: bool           // last bubble of a run of same-type rows
  )

  /** A message's row type: a missing row is 0, an action row is Action,
      our own echo in a room is Outgoing like any message we sent, and every
      other received message is Incoming. */
  function ViewTypeOf(item: Option<MessageItem>, isMUC: bool, mucNickname: Option<string>): (t: int)
    ensures t == 0 <==> item.None?
    ensures t == ViewTypeAction <==> item.Some? && item.value.action.Some?
    ensures t == ViewTypeIncoming <==>
      item.Some? && item.value.action.None? && item.value.incoming
      && !(isMUC && mucNickname == Some(item.value.resource))
    ensures t == ViewTypeOutgoing <==>
      item.Some? && item.value.action.None?
      && (!item.value.incoming || (isMUC && mucNickname == Some(item.value.resource)))
  {
    match item
    case None => 0
    case Some(m) =>
      if m.action.Some? then ViewTypeAction
      else if m.incoming then
        (if isMUC && mucNickname == Some(m.resource) then ViewTypeOutgoing else ViewTypeIncoming)
      else ViewTypeOutgoing
  }

  /** No id occurs twice in the list. */
  predicate NoDuplicates(s: seq<string>) {
    forall i, j :: 0 <= i < j < |s| ==> s[i] != s[j]
  }

  /** Java's List.remove(Object): drops the first element equal to x, if any,
      and keeps the order of the rest. */
  function RemoveFirst(s: seq<string>, x: string): (r: seq<string>)
    ensures x in s ==> |r| == |s| - 1
    ensures x !in s ==> r == s
    ensures forall y :: y != x ==> (y in r <==> y in s)
    ensures NoDuplicates(s) ==> NoDuplicates(r) && x !in r
  {
    if s == [] then []
    else if s[0] == x then
      NoDuplicatesCons(s[0], s[1..]);
      s[1..]
    else
      var rest := RemoveFirst(s[1..], x);
      NoDuplicatesCons(s[0], s[1..]);
      NoDuplicatesCons(s[0], rest);
      [s[0]] + rest
  }

  /** A list with a head is duplicate-free when its tail is and the head
      does not occur in the tail. */
  lemma NoDuplicatesCons(h: string, t: seq<string>)
    ensures NoDuplicates([h] + t) <==> h !in t && NoDuplicates(t)
  {
    var s := [h] + t;
    if h !in t && NoDuplicates(t) {
      forall i, j | 0 <= i < j < |s| ensures s[i] != s[j] {
        if i > 0 { assert s[i] == t[i - 1] && s[j] == t[j - 1]; }
        else { assert s[j] == t[j - 1]; }
      }
    }
    if NoDuplicates(s) {
      forall i, j | 0 <= i < j < |t| ensures t[i] != t[j] {
        assert t[i] == s[i + 1] && t[j] == s[j + 1];
      }
      forall k | 0 <= k < |t| ensures t[k] != h {
        assert s[0] != s[k + 1];
      }
    }
  }

  /** The add-or-remove step both toggle lists take: remove the id when the
      list contains it, append it otherwise. */
  function Toggle(s: seq<string>, x: string): (r: seq<string>)
    ensures x !in s ==> x in r
    ensures NoDuplicates(s) ==> (x in r <==> x !in s)
    ensures forall y :: y != x ==> (y in r <==> y in s)
    ensures |r| == if x in s then |s| - 1 else |s| + 1
    ensures NoDuplicates(s) ==> NoDuplicates(r)
  {
    if x in s then RemoveFirst(s, x) else s + [x]
  }

  /** Removing an id just appended to a list that lacked it gives the list back. */
  lemma {:induction false} RemoveFirstOfAppended(s: seq<string>, x: string)
    requires x !in s
    ensures RemoveFirst(s + [x], x) == s
  {
    if s != [] {
      assert (s + [x])[1..] == s[1..] + [x];
      RemoveFirstOfAppended(s[1..], x);
    }
  }

  /** Toggling the same id twice restores the list's membership and size (so
      check mode too), and restores the list itself when the id was absent. */
  lemma ToggleTwice(s: seq<string>, x: string)
    requires NoDuplicates(s)
    ensures forall y :: y in Toggle(Toggle(s, x), x) <==> y in s
    ensures |Toggle(Toggle(s, x), x)| == |s|
    ensures x !in s ==> Toggle(Toggle(s, x), x) == s
  {
    if x !in s {
      RemoveFirstOfAppended(s, x);
    }
  }

  class MessagesAdapter {
    var results: seq<MessageItem>   // the live store query the adapter shows
    var resultsValid: bool          // realmResults.isValid()
    var resultsLoaded: bool         // realmResults.isLoaded()
    const isMUC: bool
    const mucNickname: Option<string>
    var prevItemCount: int
    var unreadCount: int
    var isCheckMode: bool
    var itemsNeedOriginalText: seq<string>
    var checkedItemIds: seq<string>
    var events: seq<Event>

    /** Both id lists stay duplicate-free, and check mode is on exactly when
        some id is checked. */
    ghost predicate Valid()
      reads this
    {
      && NoDuplicates(checkedItemIds)
      && NoDuplicates(itemsNeedOriginalText)
      && isCheckMode == (|checkedItemIds| > 0)
    }

    constructor (messageItems: seq<MessageItem>, valid: bool, loaded: bool,
                 inRoom: bool, roomNickname: Option<string>)
      ensures Valid()
      ensures results == messageItems && resultsValid == valid && resultsLoaded == loaded
      ensures isMUC == inRoom && mucNickname == (if inRoom then roomNickname else None)
      ensures prevItemCount == GetItemCount()
      ensures unreadCount == 0 && !isCheckMode
      ensures itemsNeedOriginalText == [] && checkedItemIds == [] && events == []
    {
      results, resultsValid, resultsLoaded := messageItems, valid, loaded;
      isMUC := inRoom;
      mucNickname := if inRoom then roomNickname else None;
      prevItemCount := if valid && loaded then |messageItems| else 0;
      unreadCount := 0;
      isCheckMode := false;
      itemsNeedOriginalText, checkedItemIds := [], [];
      events := [];
    }

    /** The number of rows: the store's size, or 0 while the query is not
        valid or not yet loaded. */
    function GetItemCount(): (n: nat)
      reads this
      ensures n <= |results|
      ensures resultsValid && resultsLoaded ==> n == |results|
      ensures !(resultsValid && resultsLoaded) ==> n == 0
    {
      if resultsValid && resultsLoaded then |results| else 0
    }

    /** The record at a position; absent for NO_POSITION and past the end of
        the store (which is read directly, valid or not). */
    function GetMessageItem(position: int): (r: Option<MessageItem>)
      reads this
      requires position >= NoPosition
      ensures r.Some? <==> 0 <= position < |results|
      ensures r.Some? ==> r.value == results[position]
    {
      if position == NoPosition then None
      else if position < |results| then Some(results[position])
      else None
    }

    function GetItemViewType(position: int): (t: int)
      reads this
      requires position >= NoPosition
      ensures t == 0 <==> !(0 <= position < |results|)
      ensures 0 <= position < |results| ==>
        t == ViewTypeOf(Some(results[position]), isMUC, mucNickname)
    {
      ViewTypeOf(GetMessageItem(position), isMUC, mucNickname)
    }

    /** A row ends a run, and so draws a tail, when the next row's type differs. */
    function NeedTail(position: int): bool
      reads this
      requires position >= NoPosition
    {
      GetItemViewType(position) != GetItemViewType(position + 1)
    }

    /** The first unread row is found by counting back unreadCount rows from
        the end of the current row count. */
    function IsFirstUnread(position: int): bool
      reads this
    {
      position == GetItemCount() - unreadCount
    }

    /** The flags onBindViewHolder computes for a row; absent when there is
        no record at the position (the bind then returns early). */
    function BindRow(position: int): (r: Option<RowBinding>)
      reads this
      requires position >= NoPosition
      ensures r.Some? <==> 0 <= position < |results|
      ensures r.Some? ==> r.value.item == results[position] && r.value.viewType != 0
      ensures r.Some? && position == |results| - 1 ==> r.value.needTail
      ensures r.Some? ==> (r.value.checked <==> results[position].uniqueId in checkedItemIds)
      ensures r.Some? ==>
        (r.value.showOriginalText <==> results[position].uniqueId in itemsNeedOriginalText)
      ensures r.Some? && r.value.unread ==> 0 <= GetItemCount() - unreadCount < |results|
      ensures r.Some? ==>
        r.value.viewType == GetItemViewType(position)
        && r.value.unread == IsFirstUnread(position)
        && r.value.needTail == NeedTail(position)
    {
      match GetMessageItem(position)
      case None => None
      case Some(m) =>
        Some(RowBinding(
          GetItemViewType(position),
          m,
          IsFirstUnread(position),
          m.uniqueId in checkedItemIds,
          m.uniqueId in itemsNeedOriginalText,
          NeedTail(position)))
    }

    /** Linear scan for the first row whose id matches. */
    method FindMessagePosition(uniqueId: string) returns (position: int)
      ensures position == NoPosition || 0 <= position < |results|
      ensures position == NoPosition <==>
        forall k :: 0 <= k < |results| ==> results[k].uniqueId != uniqueId
      ensures position != NoPosition ==>
        results[position].uniqueId == uniqueId
        && forall k :: 0 <= k < position ==> results[k].uniqueId != uniqueId
    {
      var i := 0;
      while i < |results|
        invariant 0 <= i <= |results|
        invariant forall k :: 0 <= k < i ==> results[k].uniqueId != uniqueId
      {
        if results[i].uniqueId == uniqueId {
          return i;
        }
        i := i + 1;
      }
      return NoPosition;
    }

    /** Stores a new unread count and reports whether it differed. */
    method SetUnreadCount(n: int) returns (changed: bool)
      modifies this`unreadCount
      ensures changed <==> old(unreadCount) != n
      ensures unreadCount == n
    {
      if unreadCount != n {
        unreadCount := n;
        changed := true;
      } else {
        changed := false;
      }
    }

    /** Flips whether one message shows its original text. */
    method AddOrRemoveItemNeedOriginalText(messageId: string)
      requires Valid()
      modifies this`itemsNeedOriginalText
      ensures Valid()
      ensures itemsNeedOriginalText == Toggle(old(itemsNeedOriginalText), messageId)
    {
      if messageId in itemsNeedOriginalText {
        itemsNeedOriginalText := RemoveFirst(itemsNeedOriginalText, messageId);
      } else {
        itemsNeedOriginalText := itemsNeedOriginalText + [messageId];
      }
    }

    /** Flips whether the message at a row is checked, recomputes check mode,
        redraws everything when check mode flipped and only that row
        otherwise, and reports the new number of checked messages. */
    method AddOrRemoveCheckedItem(position: int)
      requires Valid()
      requires 0 <= position < |results|
      modifies this`checkedItemIds, this`isCheckMode, this`events
      ensures Valid()
      ensures checkedItemIds == Toggle(old(checkedItemIds), results[position].uniqueId)
      ensures isCheckMode <==> |checkedItemIds| > 0
      ensures events == old(events) + [
        if isCheckMode != old(isCheckMode) then DataSetChanged else ItemChanged(position),
        CheckedItemsChanged(|checkedItemIds|)]
    {
      var uniqueId := results[position].uniqueId;
      if uniqueId in checkedItemIds {
        checkedItemIds := RemoveFirst(checkedItemIds, uniqueId);
      } else {
        checkedItemIds := checkedItemIds + [uniqueId];
      }
      var isCheckModePrevious := isCheckMode;
      isCheckMode := |checkedItemIds| > 0;
      if isCheckMode != isCheckModePrevious {
        events := events + [DataSetChanged];
      } else {
        events := events + [ItemChanged(position)];
      }
      events := events + [CheckedItemsChanged(|checkedItemIds|)];
    }

    /** A tap toggles the row in check mode and opens it otherwise. */
    method OnMessageClick(position: int)
      requires Valid()
      requires isCheckMode ==> 0 <= position < |results|
      modifies this`checkedItemIds, this`isCheckMode, this`events
      ensures Valid()
      ensures old(isCheckMode) ==>
        checkedItemIds == Toggle(old(checkedItemIds), results[position].uniqueId)
        && events == old(events) + [
          if isCheckMode != old(isCheckMode) then DataSetChanged else ItemChanged(position),
          CheckedItemsChanged(|checkedItemIds|)]
      ensures !old(isCheckMode) ==>
        checkedItemIds == old(checkedItemIds) && !isCheckMode
        && events == old(events) + [MessageClicked(position)]
    {
      if isCheckMode {
        AddOrRemoveCheckedItem(position);
      } else {
        events := events + [MessageClicked(position)];
      }
    }

    /** A long press toggles the row whatever the mode. */
    method OnLongMessageClick(position: int)
      requires Valid()
      requires 0 <= position < |results|
      modifies this`checkedItemIds, this`isCheckMode, this`events
      ensures Valid()
      ensures checkedItemIds == Toggle(old(checkedItemIds), results[position].uniqueId)
      ensures events == old(events) + [
        if isCheckMode != old(isCheckMode) then DataSetChanged else ItemChanged(position),
        CheckedItemsChanged(|checkedItemIds|)]
    {
      AddOrRemoveCheckedItem(position);
    }

    /** Leaves check mode: a no-op when nothing is checked, otherwise empties
        the selection, redraws everything and reports zero. */
    method ResetCheckedItems()
      requires Valid()
      modifies this`checkedItemIds, this`isCheckMode, this`events
      ensures Valid()
      ensures checkedItemIds == [] && !isCheckMode
      ensures old(checkedItemIds) == [] ==> events == old(events)
      ensures old(checkedItemIds) != [] ==>
        events == old(events) + [DataSetChanged, CheckedItemsChanged(0)]
    {
      if |checkedItemIds| > 0 {
        checkedItemIds := [];
        isCheckMode := false;
        events := events + [DataSetChanged];
        events := events + [CheckedItemsChanged(|checkedItemIds|)];
      }
    }

    /** The store's change callback, with the store's state at the time it
        fires: redraw everything, report the update, and report the old row
        count when the count moved, then remember the new count. */
    method OnChange(snapshot: seq<MessageItem>, valid: bool, loaded: bool)
      requires Valid()
      modifies this`results, this`resultsValid, this`resultsLoaded, this`prevItemCount, this`events
      ensures Valid()
      ensures results == snapshot && resultsValid == valid && resultsLoaded == loaded
      ensures prevItemCount == GetItemCount()
      ensures events == old(events) + [DataSetChanged, MessagesUpdated]
        + (if old(prevItemCount) != GetItemCount() then [MessageNumberChanged(old(prevItemCount))] else [])
    {
      results, resultsValid, resultsLoaded := snapshot, valid, loaded;
      events := events + [DataSetChanged];
      events := events + [MessagesUpdated];
      var itemCount := GetItemCount();
      if prevItemCount != itemCount {
        events := events + [MessageNumberChanged(prevItemCount)];
        prevItemCount := itemCount;
      }
    }
  }

  /** The last row always draws a tail: the position after it has type 0. */
  lemma LastRowNeedsTail(a: MessagesAdapter)
    requires |a.results| > 0
    ensures a.NeedTail(|a.results| - 1)
  {
  }

  /** Inside the store a row draws a tail exactly when the next row's type differs. */
  lemma TailWithinRun(a: MessagesAdapter, p: int)
    requires 0 <= p < |a.results| - 1
    ensures a.NeedTail(p) <==>
      ViewTypeOf(Some(a.results[p]), a.isMUC, a.mucNickname)
      != ViewTypeOf(Some(a.results[p + 1]), a.isMUC, a.mucNickname)
  {
  }

  /** Two received rows followed by a sent one: tails [false, true, true]. */
  lemma TailsOfIncomingIncomingOutgoing(a: MessagesAdapter)
    requires |a.results| == 3 && !a.isMUC
    requires forall k :: 0 <= k < 3 ==> a.results[k].action.None?
    requires a.results[0].incoming && a.results[1].incoming && !a.results[2].incoming
    ensures !a.NeedTail(0) && a.NeedTail(1) && a.NeedTail(2)
  {
  }

  /** Some row of the list is the first unread one exactly when the unread
      count is between 1 and the row count, and no two rows are. */
  lemma {:induction false} FirstUnreadBoundary(a: MessagesAdapter)
    ensures (exists p :: 0 <= p < a.GetItemCount() && a.IsFirstUnread(p))
      <==> 1 <= a.unreadCount <= a.GetItemCount()
    ensures forall p, q :: a.IsFirstUnread(p) && a.IsFirstUnread(q) ==> p == q
  {
    if 1 <= a.unreadCount <= a.GetItemCount() {
      assert a.IsFirstUnread(a.GetItemCount() - a.unreadCount);
    }
  }

  /** Four rows [out, in, in, out] in a one-to-one chat with two unread:
      types [Outgoing, Incoming, Incoming, Outgoing], tails
      [true, false, true, true], and row 2 is the first unread one. */
  lemma FourRowScenario(a: MessagesAdapter)
    requires |a.results| == 4 && !a.isMUC && a.resultsValid && a.resultsLoaded
    requires forall k :: 0 <= k < 4 ==> a.results[k].action.None?
    requires !a.results[0].incoming && a.results[1].incoming
    requires a.results[2].incoming && !a.results[3].incoming
    requires a.unreadCount == 2
    ensures a.GetItemViewType(0) == ViewTypeOutgoing && a.GetItemViewType(1) == ViewTypeIncoming
    ensures a.GetItemViewType(2) == ViewTypeIncoming && a.GetItemViewType(3) == ViewTypeOutgoing
    ensures a.NeedTail(0) && !a.NeedTail(1) && a.NeedTail(2) && a.NeedTail(3)
    ensures forall p :: 0 <= p < 4 ==> (a.IsFirstUnread(p) <==> p == 2)
  {
  }

  /** Three change callbacks with 5, 5 and 7 rows after a start at 5 rows:
      every callback redraws and reports an update, and only the last one
      reports a count change, carrying the old count 5. */
  method RowCountScenario(five: seq<MessageItem>, seven: seq<MessageItem>)
    returns (log: seq<Event>, count: int)
    requires |five| == 5 && |seven| == 7
    ensures count == 7
    ensures log == [DataSetChanged, MessagesUpdated, DataSetChanged, MessagesUpdated,
                    DataSetChanged, MessagesUpdated, MessageNumberChanged(5)]
  {
    var a := new MessagesAdapter(five, true, true, false, None);
    a.OnChange(five, true, true);
    a.OnChange(five, true, true);
    a.OnChange(seven, true, true);
    log, count := a.events, a.GetItemCount();
  }

  /** Checking a row and checking it again leaves the selection and check
      mode as they were; the first toggle enters check mode with a full
      redraw, the second leaves it with another. */
  method CheckTwiceScenario(items: seq<MessageItem>, position: int)
    returns (log: seq<Event>, checkedAfter: seq<string>, modeAfter: bool)
    requires 0 <= position < |items|
    ensures checkedAfter == [] && !modeAfter
    ensures log == [DataSetChanged, CheckedItemsChanged(1), DataSetChanged, CheckedItemsChanged(0)]
  {
    var a := new MessagesAdapter(items, true, true, false, None);
    a.OnLongMessageClick(position);
    a.OnMessageClick(position);
    log, checkedAfter, modeAfter := a.events, a.checkedItemIds, a.isCheckMode;
  }
}
