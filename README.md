# Xabber chat timeline presentation, modelled in Dafny

This project models the presentation logic of Xabber's chat screen. It also
covers the crowdfunding entry of the contact list. The modelled parts are:

- `MessagesAdapter` turns the ordered message records of a chat into row
  decisions. It picks the row type (action, incoming, outgoing). It picks the
  tail flag, which marks the last bubble of a run of same-type rows. It also
  picks the first-unread row, the checked flag and the show-original-text
  flag. It keeps the checked-id list and its check mode, the original-text
  list, the unread count and the last row count it saw. It turns taps, long
  presses and store change callbacks into redraw requests and listener
  callbacks.
- `OutgoingMessageVH` chooses the delivery-status icon of a sent message
  through a priority rule. It sets the progress bar and the tail-dependent
  balloon geometry.
- `IncomingMessageVH` shows the archive icon and sets the tail-dependent
  geometry. It decides whether the avatar is shown and where its image comes
  from, and it hides blank messages.
- `CrowdfundingChatVO` builds the contact-list entry for the crowdfunding
  chat in the locale's language. It defines the entry's identity and fills
  its row: the unread badge and the text fallback.

Files and modules:

- `basics.dfy` (`Basics`): `Option`, view `Visibility`, dip `Insets`, and
  the balloon drawables.
- `message_items.dfy` (`MessageItems`): the message record.
- `messages_adapter.dfy` (`Messages`): the classifier and the
  `MessagesAdapter` class. The adapter's lists and counters are fields. Every
  `notify*` and listener call is appended to an `events` log.
- `outgoing_message_vh.dfy` (`OutgoingMessages`) and
  `incoming_message_vh.dfy` (`IncomingMessages`): the two row binders. Each
  is a class whose fields are the visibilities, images and geometry that
  `bind` writes. The methods are written in the source's order of writes and
  proved against pure functions (`StatusIconOf`, `AvatarVisibility`,
  `AvatarSource`).
- `crowdfunding_chat_vo.dfy` (`Crowdfunding`): the value object as a
  datatype with pure functions.

These collaborators become parameters:

- The Realm query is the `results` sequence with its `resultsValid` and
  `resultsLoaded` flags. `OnChange` receives the store's state at the moment
  the callback fires.
- The clock is the `now` argument.
- The avatar settings are `AvatarSettings`.
- The room nickname lookup is `ownNickname`.
- `UserJid.from` is `jidFrom`, which returns `None` where it throws.
- The locale's language is `language`.
- `UUID.randomUUID()` is `uuid`.

Where the code differs from the engine's design intent, the model follows
the code:

- A position with no record is not an out-of-range error. It has row
  type 0 and no row flags.
- The unread count is not clamped to the row count. A count above the row
  count, or a negative count, marks no row among the row count's positions
  as first unread (`FirstUnreadBoundary`). While the query is not valid or
  not loaded the row count is 0, yet stored records still get row flags, so
  a count of 0 then marks record 0, as the source does.
- The id lists are Java lists, not sets. Removal drops the first equal id.
  Toggling a present id twice moves it to the end of the list, so only
  membership is restored in that case (`ToggleTwice`).

## Model

| member | source | states |
|---|---|---|
| `Messages.ViewTypeOf` | xabber/src/main/java/com/xabber/android/ui/adapter/chat/MessagesAdapter.java:96-109 | A missing record gives 0. A record with an action gives Action (4). A sent message, or a received one in a room whose resource is our nickname, gives Outgoing (3). Every other received message gives Incoming (2). Each case is stated as an if-and-only-if. |
| `Messages.MessagesAdapter.GetItemCount` | xabber/src/main/java/com/xabber/android/ui/adapter/chat/MessagesAdapter.java:89-93 | The row count is the store's size when the query is valid and loaded, and 0 otherwise. |
| `Messages.MessagesAdapter.GetMessageItem` | xabber/src/main/java/com/xabber/android/ui/adapter/chat/MessagesAdapter.java:189-195 | A record is returned exactly for positions in `[0, size)`, and it is the record at that position. NO_POSITION and positions past the end give none. |
| `Messages.MessagesAdapter.GetItemViewType` | xabber/src/main/java/com/xabber/android/ui/adapter/chat/MessagesAdapter.java:96-109 | The type is 0 exactly when the position holds no record. Otherwise it is the classifier's type of that record. |
| `Messages.MessagesAdapter.BindRow` | xabber/src/main/java/com/xabber/android/ui/adapter/chat/MessagesAdapter.java:133-157 | Row flags exist exactly for positions holding a record. The type is the position's `GetItemViewType`, never 0. `unread` equals `IsFirstUnread(position)`, which is `position == itemCount - unreadCount` (see `FirstUnreadBoundary`). `needTail` equals `NeedTail(position)`, which is true iff the next position's type differs (see `TailWithinRun`, `LastRowNeedsTail`); the last record always has a tail. A row is checked iff its id is in the checked list. It shows original text iff its id is in that list. |
| `Messages.LastRowNeedsTail` | xabber/src/main/java/com/xabber/android/ui/adapter/chat/MessagesAdapter.java:157 | The last row always needs a tail, because the position after it has type 0. |
| `Messages.TailWithinRun` | xabber/src/main/java/com/xabber/android/ui/adapter/chat/MessagesAdapter.java:157 | Inside the store, a row needs a tail iff its record's type differs from the next record's type. |
| `Messages.TailsOfIncomingIncomingOutgoing` | xabber/src/main/java/com/xabber/android/ui/adapter/chat/MessagesAdapter.java:157 | Rows [in, in, out] in a one-to-one chat get tails [false, true, true]. |
| `Messages.FirstUnreadBoundary` | xabber/src/main/java/com/xabber/android/ui/adapter/chat/MessagesAdapter.java:148 | Some row in `[0, itemCount)` is first-unread iff `1 <= unreadCount <= itemCount`, so 0 or an over-large count marks none. No two positions are both first-unread. |
| `Messages.FourRowScenario` | xabber/src/main/java/com/xabber/android/ui/adapter/chat/MessagesAdapter.java:133-157 | Rows [out, in, in, out] in a one-to-one chat get types [3, 2, 2, 3] and tails [true, false, true, true]. With two unread, row 2 is the only first-unread row. |
| `Messages.MessagesAdapter.FindMessagePosition` | xabber/src/main/java/com/xabber/android/ui/adapter/chat/MessagesAdapter.java:208-213 | The result is the first index whose id matches. It is NO_POSITION iff no record has the id. |
| `Messages.MessagesAdapter.SetUnreadCount` | xabber/src/main/java/com/xabber/android/ui/adapter/chat/MessagesAdapter.java:215-220 | Returns true iff the new count differs from the stored one. The stored count is then the new one, and nothing else changes. |
| `Messages.RemoveFirst` | xabber/src/main/java/com/xabber/android/ui/adapter/chat/MessagesAdapter.java:226-230 | `List.remove(Object)`: the length drops by one iff the id was present, and an absent id leaves the list as it was. Other ids keep their membership. A duplicate-free list stays duplicate-free and loses the id. |
| `Messages.Toggle` | xabber/src/main/java/com/xabber/android/ui/adapter/chat/MessagesAdapter.java:226-230 | Contains-then-remove-else-add flips the id's membership in a duplicate-free list and leaves every other id alone. The length changes by exactly one, and the list stays duplicate-free. |
| `Messages.ToggleTwice` | xabber/src/main/java/com/xabber/android/ui/adapter/chat/MessagesAdapter.java:226-230 | Toggling an id twice restores membership and size, and so check mode. If the id was absent, the list itself is restored. |
| `Messages.MessagesAdapter.AddOrRemoveItemNeedOriginalText` | xabber/src/main/java/com/xabber/android/ui/adapter/chat/MessagesAdapter.java:226-230 | The original-text list becomes its toggle by the id and stays duplicate-free. |
| `Messages.MessagesAdapter.AddOrRemoveCheckedItem` | xabber/src/main/java/com/xabber/android/ui/adapter/chat/MessagesAdapter.java:234-249 | The checked list toggles the row's id, and check mode is on iff the list is non-empty. The adapter logs a full redraw iff check mode flipped, and a redraw of that row otherwise. It then reports the new size. |
| `Messages.MessagesAdapter.OnMessageClick` | xabber/src/main/java/com/xabber/android/ui/adapter/chat/MessagesAdapter.java:198-201 | In check mode a tap toggles the row as above. Otherwise it only forwards the click and changes no selection. |
| `Messages.MessagesAdapter.OnLongMessageClick` | xabber/src/main/java/com/xabber/android/ui/adapter/chat/MessagesAdapter.java:204-206 | A long press toggles the row in either mode, with the same redraw and report. |
| `Messages.CheckTwiceScenario` | xabber/src/main/java/com/xabber/android/ui/adapter/chat/MessagesAdapter.java:198-249 | A long press and then a tap on the same row leave nothing checked and check mode off. Each of the two steps logs a full redraw and reports counts 1 and then 0. |
| `Messages.MessagesAdapter.ResetCheckedItems` | xabber/src/main/java/com/xabber/android/ui/adapter/chat/MessagesAdapter.java:259-266 | Afterwards nothing is checked and check mode is off. With an empty list no event is logged. Otherwise one full redraw and a report of 0 are logged. |
| `Messages.MessagesAdapter.OnChange` | xabber/src/main/java/com/xabber/android/ui/adapter/chat/MessagesAdapter.java:177-186 | Always logs a full redraw and an update. It reports the old count iff the row count moved. Afterwards the remembered count equals the row count. |
| `Messages.RowCountScenario` | xabber/src/main/java/com/xabber/android/ui/adapter/chat/MessagesAdapter.java:177-186 | From 5 rows, callbacks with 5, 5 and 7 rows log three redraw/update pairs. Exactly one count change is logged, carrying 5, and the count ends at 7. |
| `Messages.MessagesAdapter.constructor` | xabber/src/main/java/com/xabber/android/ui/adapter/chat/MessagesAdapter.java:53-86 | The remembered count starts at the row count and the unread count at 0. Both lists start empty and check mode starts off. The room nickname is kept only for rooms. |
| `OutgoingMessages.StatusIconOf` | xabber/src/main/java/com/xabber/android/ui/adapter/chat/OutgoingMessageVH.java:85-99 | Each icon with its exact condition. Forwarded iff forwarded. Synced iff archived and not forwarded. Error iff errored and neither of those. Not-sent iff none of those, no upload pending, not sent and `now - timestamp > 1000`. Acknowledged iff no earlier branch fires, it is undelivered and it is acknowledged. The delivered default covers the rest. |
| `OutgoingMessages.StatusVisibilityOf` | xabber/src/main/java/com/xabber/android/ui/adapter/chat/OutgoingMessageVH.java:76-100 | The icon is never INVISIBLE. It is GONE iff the rule falls through to the delivered default for an undelivered message. |
| `OutgoingMessages.NotSentPersists` | xabber/src/main/java/com/xabber/android/ui/adapter/chat/OutgoingMessageVH.java:92-94 | A message shown as not sent stays not sent at every later time. |
| `OutgoingMessages.OutgoingMessageVH.SetStatusIcon` | xabber/src/main/java/com/xabber/android/ui/adapter/chat/OutgoingMessageVH.java:76-101 | The image is `StatusIconOf` and the visibility is `StatusVisibilityOf`. The progress bar is VISIBLE iff an upload is pending. |
| `OutgoingMessages.OutgoingMessageVH.Bind` | xabber/src/main/java/com/xabber/android/ui/adapter/chat/OutgoingMessageVH.java:24-55 | The status icon is as above. The progress bar ends VISIBLE iff the message is in progress, which overrides the upload-based setting. With a tail, the drawables are the tailed ones, margins are (2,2,2,2) and right padding is 20. Without one, margins are (10,2,11,2) and right padding is 12. Left padding is always 12. |
| `IncomingMessages.AvatarVisibility` | xabber/src/main/java/com/xabber/android/ui/adapter/chat/IncomingMessageVH.java:91-111 | GONE iff avatars are off for this kind of chat. INVISIBLE iff they are on but the row has no tail. VISIBLE iff they are on and the row has a tail. |
| `IncomingMessages.AvatarSource` | xabber/src/main/java/com/xabber/android/ui/adapter/chat/IncomingMessageVH.java:113-136 | Outside rooms the source is the partner's avatar. In a room it is an account avatar iff the resource is our nickname, and then it is our own account's (`m.account`). Otherwise it is a room avatar iff the resource is empty, and then it is the avatar of the room `m.user`. Otherwise it is the occupant avatar for the jid built from "user/resource", or a default avatar named by the nickname when that jid cannot be built. |
| `IncomingMessages.TrimEmptyIffBlank` | xabber/src/main/java/com/xabber/android/ui/adapter/chat/IncomingMessageVH.java:79 | `String.trim()` gives an empty string iff every character is at or below U+0020. |
| `IncomingMessages.IncomingMessageVH.SetUpAvatar` | xabber/src/main/java/com/xabber/android/ui/adapter/chat/IncomingMessageVH.java:91-140 | Avatar and background get `AvatarVisibility`. The image is set to `AvatarSource` only when they are VISIBLE. Otherwise the recycled holder's old image stays. |
| `IncomingMessages.IncomingMessageVH.Bind` | xabber/src/main/java/com/xabber/android/ui/adapter/chat/IncomingMessageVH.java:38-89 | The archive icon is VISIBLE iff the message came from the archive, and GONE otherwise. With a tail, margins are (2,2,2,2) and left padding is 20. Without one, margins are (11,2,10,2) and left padding is 12. Right padding is always 12. A blank text makes balloon, time, avatar and background GONE. Otherwise balloon and time are VISIBLE and the avatar keeps its `AvatarVisibility`. |
| `Crowdfunding.Convert` | xabber/src/main/java/com/xabber/android/presentation/ui/contactlist/viewobjects/CrowdfundingChatVO.java:41-53 | The Russian text iff the language is exactly "ru", and the English text otherwise. The time is absent, the unread count passes through unchanged, the id is the drawn UUID and the colours are the painter's defaults. |
| `Crowdfunding.Equals` | xabber/src/main/java/com/xabber/android/presentation/ui/contactlist/viewobjects/CrowdfundingChatVO.java:55-62 | True iff the other object is an entry with the same id. It ignores text, time, count and colours, and it is false for null and other types. |
| `Crowdfunding.EqualsIsEquivalence` | xabber/src/main/java/com/xabber/android/presentation/ui/contactlist/viewobjects/CrowdfundingChatVO.java:55-62 | Among entries, equality is reflexive, symmetric and transitive. |
| `Crowdfunding.ConvertedEntriesEqualIffSameUuid` | xabber/src/main/java/com/xabber/android/presentation/ui/contactlist/viewobjects/CrowdfundingChatVO.java:31-53 | Two conversions of the same announcement are equal iff they drew the same UUID. |
| `Crowdfunding.DecimalString` | xabber/src/main/java/com/xabber/android/presentation/ui/contactlist/viewobjects/CrowdfundingChatVO.java:83 | `String.valueOf` of a non-negative count is a non-empty string of decimal digits. It has no leading zero when the count is positive. |
| `Crowdfunding.DecimalRoundTrip` | xabber/src/main/java/com/xabber/android/presentation/ui/contactlist/viewobjects/CrowdfundingChatVO.java:83 | Reading the digit string back gives the count. |
| `Crowdfunding.BindViewHolder` | xabber/src/main/java/com/xabber/android/presentation/ui/contactlist/viewobjects/CrowdfundingChatVO.java:75-95 | The badge is VISIBLE iff the count is positive, showing digits that read back to the count. Otherwise it is INVISIBLE and keeps its old text. Empty text shows the chat-description string, and non-empty text is shown as is. The colours come from the entry. |

## Left out

- `onCreateViewHolder`, view inflation, drawables' colour filters, the
  balloon colour state lists, theme attributes and `Utils.dipToPx` are not
  modelled. Geometry is kept as dip integers before conversion.
- `ActionMessageVH.bind` and the superclasses' `bind` (`MessageVH`,
  `FileMessageVH`) are not part of this model. They draw the text, the
  unread marker and the checked background. `BindRow` stops at the flags
  `onBindViewHolder` hands them.
- `getItem(position)` belongs to the Realm adapter base class, which is not
  part of this model. It is taken as the record at the position. The
  toggles therefore require a position inside the store, where the source
  would fail outside it.
- `GetMessageItem` requires `position >= NO_POSITION`. Realm throws for
  other negative positions, and RecyclerView never passes them.
- `getCheckedItemIds` returns the live list in the source, so callers could
  mutate it. The model keeps the list private, and the duplicate-free
  invariant relies on that. `getUnreadCount` and `getCheckedItemsCount` are
  plain field reads.
- The upload-progress subscription and the attach-state listeners are not
  modelled (OutgoingMessageVH.java:63-73). Avatar loading, the roster name
  lookup, colour lookups and `StringUtils.getSmartTimeTextForRoster` are not
  modelled either. The crowdfunding row records the time value it would
  format.
- `OutgoingMessages.StatusIconOf`: `now - timestamp` is unbounded here. The
  source's 64-bit `long` subtraction could overflow for absurd timestamps.
- `IncomingMessages.IncomingMessageVH.SetUpAvatar`: `ownNickname` is a
  plain string. The source would throw if the room nickname lookup returned
  null.
- Store notifications are taken one at a time, as the source handles them.
  There is no coalescing or concurrency to model.
- `RecentChatFragment` and `MamMessageResultFilter` are not part of this
  model. They hold lifecycle, threading and protocol-extension glue.
