# Hades game server: packet formats and session handlers

This project models two parts of the Hades/Lorule game server in Dafny and
proves properties of them.

The first part is three outgoing wire formats:

- the world-map (portal descriptor) packet `ServerFormat2E`;
- the encryption acknowledgement `EncryptionReceived`;
- the one-zero-byte packet `ServerFormat49`.

Each appends to a packet writer. The writer is a class whose `buffer`
every write extends. The bytes each format appends are specified by a
function. For the world map there is also a parser, and a round trip is
proved: the packet reads back as its name, the count of all entries, and
one record per entry with a destination, in order, with Y and X swapped back.

The second part is the per-connection logic of `GameServerHandlers.cs`,
with sends, scripts and locks stripped:

- the redirect registry that admits a player into the world once;
- loading a player and deriving the game-master flag;
- dialog navigation;
- stat allocation;
- slot swaps;
- stackable items;
- gold and the exchange;
- community boards;
- settings;
- chat, emotes and the party toggle.

State the handlers change in place is kept in classes:

- `Aisling` is the player;
- `ExchangeSession` is one side of an exchange;
- `RedirectRegistry` holds the pending redirects;
- `BoardCache` holds the cached boards;
- `MenuSession` holds the dialog interpreter.

Their methods are proved against pure functions of the same rule. The
lemmas about those functions state what the handler guarantees.

Modules:

- `Common`: option type, byte widths and the first-match search.
- `Text`: decimal text, zero padding and ASCII case mapping.
- `Wire`: the writer and reader.
- `WorldMapPacket`, `EncryptionAck`, `Keepalive`: the wire formats.
- `Redirects`: the redirect registry.
- `Login`: loading and entering.
- `Dialog`: dialog navigation.
- `Stats`, `Slots`, `Items`, `Gold`, `Settings`, `Chat`: the handler rules.
- `Boards`: community boards.
- `Character`: the player class and the exchange.

Assumptions about the packet writer, whose source is not part of this model:

- a byte is appended as itself;
- a 16-bit value is appended as its low sixteen bits, most significant byte first;
- `WriteStringA` appends one length byte (the length truncated to a byte), then one byte per character (its code truncated to a byte).

Bytes are integers in 0..255 (`u8`) rather than `bv8`. The values are the
same either way.

Behaviour of the code that the model keeps as written:

- `Format10Handler` runs `EnterGame`, which loads the player, before
  `ValidateClient` checks the redirect. The redirect consumed is the one for
  the stored player's name.
- `LoadPlayer` assigns the player before its sanity check. So a record that
  fails the check still consumes its redirect.
- A redirect registry that held a name twice admits it twice. The model uses
  a multiset so that this is visible, and proves that a name is never
  admitted more often than it was issued.
- The swap bounds check accepts slot number `Length + 1`.
- The stack split in a drop has no lower guard on the amount. If the amount
  can be negative, a stack grows by it and the byte-truncated amount lands
  as well (`Items.DropNegativeAmount`).
- The tool pane swaps in the spell book.
- Board post ids are the post count plus one. After a delete, the next post
  repeats an id still on the board (`Boards.AddAfterDeleteRepeatsId`).
- A board delete acts on whatever post is at the position when it runs.
  Nothing locks the board. A repeated delete of the same position therefore
  reaches the post that moved into it, if the requester owns that one too.

## Model

| member | source | states |
|---|---|---|
| Common.FirstIndex | src/Hades.Server.Base/Network/Game/GameServerHandlers.cs:1474 | the position found is the first element satisfying the condition; none is found only when no element satisfies it |
| Text.ZeroPad | Darkages.Server/Network/ServerFormats/ServerFormat2E.cs:38 | padding with zeros keeps the digits' value and gives at least the requested width |
| Text.Digits | src/Hades.Server.Base/Network/Game/GameServerHandlers.cs:210-212 | the digits of a natural number denote it, and start with '0' only for zero itself |
| Text.Decimal | src/Hades.Server.Base/Network/Game/GameServerHandlers.cs:210-212 | the decimal text of an integer denotes that integer, with a leading '-' exactly for negatives and no leading zero on the digits (a single "0" for zero) |
| Text.IgnoreCaseSameKey | src/Hades.Server.Base/Network/Game/GameServerHandlers.cs:1744 | two names are equal ignoring case exactly when their lower-cased keys are equal |
| WorldMapPacket.FieldName | Darkages.Server/Network/ServerFormats/ServerFormat2E.cs:38 | the name is "field" followed by the field number's digits, zero-padded to three and no further (eight characters for 0..999); a negative number keeps its '-' in front of the padded digits |
| WorldMapPacket.RecordBytes | Darkages.Server/Network/ServerFormats/ServerFormat2E.cs:50-56 | a record is 11 bytes plus the display name, with the name's length byte at offset 4 after the two 16-bit coordinates |
| WorldMapPacket.HeaderBytes | Darkages.Server/Network/ServerFormats/ServerFormat2E.cs:38-42 | the header is the name's length byte, the name, the byte-truncated entry count and the marker 0x09, at least 11 bytes |
| WorldMapPacket.WorldMapBytes | Darkages.Server/Network/ServerFormats/ServerFormat2E.cs:38-57 | the packet starts with the name's length byte, and the entry count and the marker 0x09 sit right after the name |
| WorldMapPacket.ParseRecordOf | Darkages.Server/Network/ServerFormats/ServerFormat2E.cs:50-56 | one record reads back as PointY, PointX, the display name, AreaID and destination X then Y, each 16-bit value truncated |
| WorldMapPacket.ParseRecordsOf | Darkages.Server/Network/ServerFormats/ServerFormat2E.cs:44-57 | the records read back one per entry with a destination, in list order; null entries and null destinations contribute nothing |
| WorldMapPacket.WorldMapRoundTrip | Darkages.Server/Network/ServerFormats/ServerFormat2E.cs:38-57 | the packet reads back as the field name, the count of all entries (nulls included) truncated to a byte, the marker 0x09, and the emitted records |
| WorldMapPacket.PortalsBytesSize | Darkages.Server/Network/ServerFormats/ServerFormat2E.cs:44-57 | the records' length is the sum of the sizes of the records emitted |
| WorldMapPacket.WorldMapSize | Darkages.Server/Network/ServerFormats/ServerFormat2E.cs:38-57 | for field numbers 0..999 the packet is an 11-byte header plus the non-null records |
| WorldMapPacket.WriteRecord | Darkages.Server/Network/ServerFormats/ServerFormat2E.cs:50-56 | the loop body appends exactly one record's bytes |
| WorldMapPacket.WritePortals | Darkages.Server/Network/ServerFormats/ServerFormat2E.cs:44-57 | the loop appends the records of the non-null entries, skipping the others |
| WorldMapPacket.ServerFormat2E.Read | Darkages.Server/Network/ServerFormats/ServerFormat2E.cs:31-33 | the reader overload consumes nothing |
| WorldMapPacket.ServerFormat2E.Serialize | Darkages.Server/Network/ServerFormats/ServerFormat2E.cs:35-58 | a cached field appends exactly the packet's bytes; a missing one appends nothing |
| EncryptionAck.AckBytes | Client/ClientFormats/EncryptionReceived.cs:28-39 | type 0 gives [0,0,0,0] and any other type [1,0,0,0,0]; the length is 4 or 5 and the first byte is 0 exactly for type 0 |
| EncryptionAck.NonZeroTypesAgree | Client/ClientFormats/EncryptionReceived.cs:34-39 | all non-zero types give identical bytes |
| EncryptionAck.EncryptionReceived.Read | Client/ClientFormats/EncryptionReceived.cs:22-24 | the reader overload consumes nothing |
| EncryptionAck.EncryptionReceived.Serialize | Client/ClientFormats/EncryptionReceived.cs:26-40 | appends exactly the acknowledgement bytes of the type |
| Keepalive.ServerFormat49.constructor | src/Hades.Server.Base/Network/ServerFormats/ServerFormat49.cs:5-9 | the packet is secured with command 0x49 |
| Keepalive.ServerFormat49.Read | src/Hades.Server.Base/Network/ServerFormats/ServerFormat49.cs:11-13 | the reader overload consumes nothing |
| Keepalive.ServerFormat49.Serialize | src/Hades.Server.Base/Network/ServerFormats/ServerFormat49.cs:15-18 | appends exactly one byte, 0x00, keeping what was written before |
| Redirects.Consume | src/Hades.Server.Base/Network/Game/GameServerHandlers.cs:725-737 | an attempt is admitted exactly when the lower-cased name is pending, and then removes one occurrence of it and nothing else |
| Redirects.AtMostOnce | src/Hades.Server.Base/Network/Game/GameServerHandlers.cs:721-749 | over any sequence of attempts a name is admitted no more often than it is pending |
| Redirects.SecondAttemptRejected | src/Hades.Server.Base/Network/Game/GameServerHandlers.cs:725-737 | with one pending redirect, a second attempt under the same name in any case is rejected |
| Redirects.RedirectRegistry.ValidateClient | src/Hades.Server.Base/Network/Game/GameServerHandlers.cs:725-737 | admits exactly when the lower-cased name is pending and consumes it |
| Redirects.RedirectRegistry.ExitGame | src/Hades.Server.Base/Network/Game/GameServerHandlers.cs:206-221 | removes any pending redirect for the lower-cased name and issues a type "2" redirect carrying the serial, salt, seed and name |
| Login.LoadPlayer | src/Hades.Server.Base/Network/Game/GameServerHandlers.cs:2615-2639 | a player loads exactly when a record exists with positive Str, Ac at most 200 and ExpLevel at most 99 |
| Login.IsGameMaster | src/Hades.Server.Base/Network/Game/GameServerHandlers.cs:2564 | a player is a game master exactly when a configured name lower-cases to the same key |
| Login.GameMasterIgnoresCase | src/Hades.Server.Base/Network/Game/GameServerHandlers.cs:2564 | names differing only in letter case get the same game-master flag |
| Login.EnterWorld | src/Hades.Server.Base/Network/Game/GameServerHandlers.cs:721-749 | a player enters exactly when the record loads and its redirect is pending; a present record that does not enter is rejected with its load outcome (corrupted or loaded); a missing record is reported apart and leaves the registry alone; the redirect is consumed even for a corrupted record |
| Login.EnterOnce | src/Hades.Server.Base/Network/Game/GameServerHandlers.cs:721-749 | after one successful entry on a single redirect, the same player entering again is rejected |
| Dialog.FirstAnswer | src/Hades.Server.Base/Network/Game/GameServerHandlers.cs:1474 | the answer found has the text and no earlier answer has it; none is found only when no answer has it |
| Dialog.Respond | src/Hades.Server.Base/Network/Game/GameServerHandlers.cs:1448-1518 | a close comes only from steps 0 and 2; a move or a fault only from steps 1 and above 2 on an open dialog with an interpreter, a move with a current step and a fault without one |
| Dialog.RespondRules | src/Hades.Server.Base/Network/Game/GameServerHandlers.cs:1448-1518 | step 0 with script id 0xFFFF closes; step above 2 moves to the first "back"; step 1 to the first "next", else the first answer without text, else the first "complete"; step 0 or 2 closes exactly when a "close" answer exists; otherwise nothing moves; a missing current step faults only for steps 1 and above 2 |
| Dialog.MoveNamesAnswer | src/Hades.Server.Base/Network/Game/GameServerHandlers.cs:1472-1505 | every move names an answer of the current step carrying the reserved text of its step code |
| Dialog.MenuSession.OnMovedToNextStep | src/Hades.Server.Base/Network/Game/GameServerHandlers.cs:2701-2708 | a finished interpreter is cleared; any other is kept |
| Stats.RaiseStat | src/Hades.Server.Base/Network/Game/GameServerHandlers.cs:2070-2120 | a stat ends at most the cap and positive; a flagged stat below the cap goes up by one, a flagged stat at or above it ends at the cap; an unflagged stat within the cap is kept, an unflagged zero or over-cap stat becomes the cap |
| Stats.SpendPoint | src/Hades.Server.Base/Network/Game/GameServerHandlers.cs:2122-2126 | the unspent points drop by one for non-game-masters, stay for game masters, and a count at or below zero ends at exactly zero |
| Stats.AllocateBounds | src/Hades.Server.Base/Network/Game/GameServerHandlers.cs:2064-2126 | with points left, each of the five stats that is flagged and below the cap goes up by exactly one, and each unflagged stat within the cap is kept |
| Stats.Allocate | src/Hades.Server.Base/Network/Game/GameServerHandlers.cs:2064-2126 | with no points left nothing changes; otherwise each stat becomes that stat's raise rule applied alone, every stat ends within the cap, the points drop by one for non-game-masters and stay for game masters, and a negative count ends at zero |
| Stats.CapIsFixedPoint | src/Hades.Server.Base/Network/Game/GameServerHandlers.cs:2100-2120 | a player at the cap in every stat stays there |
| Character.Aisling.RaiseStats | src/Hades.Server.Base/Network/Game/GameServerHandlers.cs:2062-2129 | the handler's new stats and points are the allocation rule's, and within the cap; no other field of the player changes |
| Slots.Swap | src/Hades.Server.Base/Network/Game/GameServerHandlers.cs:1181-1199 | the objects of the two slots exchange places, either may be empty, and every other slot is unchanged |
| Slots.SwapInPane | src/Hades.Server.Base/Network/Game/GameServerHandlers.cs:1172-1179 | the swap happens exactly when both slot numbers minus one lie in 0..Length, and the pane then becomes the two-slot exchange |
| Slots.SwapSelf | src/Hades.Server.Base/Network/Game/GameServerHandlers.cs:1181-1199 | swapping a slot with itself changes nothing |
| Slots.SwapTwice | src/Hades.Server.Base/Network/Game/GameServerHandlers.cs:1181-1199 | swapping the same two slots twice restores the pane |
| Slots.SwapSymmetric | src/Hades.Server.Base/Network/Game/GameServerHandlers.cs:1181-1199 | the order of the two slot numbers does not matter |
| Slots.SwapLosesNothing | src/Hades.Server.Base/Network/Game/GameServerHandlers.cs:1181-1199 | every object of the pane is still in it after a swap |
| Slots.SwapKeepsContents | src/Hades.Server.Base/Network/Game/GameServerHandlers.cs:1181-1199 | a swap keeps exactly the same objects in the pane |
| Character.Aisling.SwapSlots | src/Hades.Server.Base/Network/Game/GameServerHandlers.cs:1168-1304 | each pane swaps under its own bounds check, the tool pane in the spell book; an unknown pane faults; no other field of the player changes |
| Items.Use | src/Hades.Server.Base/Network/Game/GameServerHandlers.cs:934-958 | an activated stackable consumable loses one unit, or frees its slot when that would leave none; anything else and every other slot are unchanged |
| Items.UseTakesOne | src/Hades.Server.Base/Network/Game/GameServerHandlers.cs:943-958 | a consuming use takes exactly one unit out of the slot |
| Items.UseTimesCount | src/Hades.Server.Base/Network/Game/GameServerHandlers.cs:943-958 | n uses of a stack of at least n units leave n fewer, and a stack used as often as it is high is gone |
| Items.Drop | src/Hades.Server.Base/Network/Game/GameServerHandlers.cs:478-569 | a drop happens exactly for a droppable item on a reachable cell, and each refusal (no item, not droppable, out of reach) exactly under its own condition; a stackable item with less than the amount remaining splits, keeping stack minus amount and landing the amount, both truncated to a byte; otherwise the whole item lands; other slots are unchanged |
| Items.DropConserves | src/Hades.Server.Base/Network/Game/GameServerHandlers.cs:527-552 | for a non-negative amount, the units kept plus the units landed equal the stack |
| Items.DropNegativeAmount | src/Hades.Server.Base/Network/Game/GameServerHandlers.cs:527-548 | a small negative amount on a stackable item raises the stack by that much and lands 256 plus the amount, so 256 units appear |
| Character.Aisling.UseItem | src/Hades.Server.Base/Network/Game/GameServerHandlers.cs:881-958 | the inventory becomes the use rule's, one unit fewer for a consuming use; no other field of the player changes |
| Character.Aisling.DropItem | src/Hades.Server.Base/Network/Game/GameServerHandlers.cs:462-569 | the inventory and the landed item are the drop rule's, conserving units; no other field of the player changes |
| Gold.DropGold | src/Hades.Server.Base/Network/Game/GameServerHandlers.cs:1008-1013 | a drop succeeds exactly when the player has at least the amount; the rest is the gold minus the amount and is never negative |
| Character.Aisling.DropGoldOnMap | src/Hades.Server.Base/Network/Game/GameServerHandlers.cs:994-1025 | gold drops by the amount when enough is carried, and is otherwise unchanged; no other field of the player changes |
| Gold.Offer | src/Hades.Server.Base/Network/Game/GameServerHandlers.cs:2240-2265 | an offer is accepted exactly between linked, unconfirmed sessions, within the player's gold and with no offer standing; then gold plus offer is preserved |
| Gold.OfferOnce | src/Hades.Server.Base/Network/Game/GameServerHandlers.cs:2261 | once a non-zero offer stands, another offer is refused |
| Character.OfferGold | src/Hades.Server.Base/Network/Game/GameServerHandlers.cs:2240-2286 | the handler moves the offer from the player's gold into the session exactly as the offer rule allows; a refused offer changes nothing, and the session's trader and confirmation always stay |
| Gold.Confirm | src/Hades.Server.Base/Network/Game/GameServerHandlers.cs:2304-2324 | a linked, unconfirmed player becomes confirmed, and the exchange finishes exactly when the trader had confirmed |
| Character.ConfirmExchange | src/Hades.Server.Base/Network/Game/GameServerHandlers.cs:2304-2324 | the handler sets the confirmation and reports the finish as the confirm rule says; the session's gold and trader stay |
| Settings.UpdateSettings | src/Hades.Server.Base/Network/Game/GameServerHandlers.cs:232-243 | the loop builds the tab-joined line of the present settings' texts |
| Settings.SettingsLineTabs | src/Hades.Server.Base/Network/Game/GameServerHandlers.cs:232-243 | with tab-free texts the line has one tab more than there are present settings |
| Settings.Toggle | src/Hades.Server.Base/Network/Game/GameServerHandlers.cs:851-879 | index i above zero flips setting i-1 and nothing else; index 0 only re-sends; a position past the end or a missing entry faults; no settings means nothing |
| Settings.ToggleTwice | src/Hades.Server.Base/Network/Game/GameServerHandlers.cs:863-873 | toggling the same setting twice restores the settings |
| Character.Aisling.ToggleSetting | src/Hades.Server.Base/Network/Game/GameServerHandlers.cs:851-879 | the settings become the toggle rule's, and the line re-sent is built from them; no other field of the player changes |
| Chat.ChatLine | src/Hades.Server.Base/Network/Game/GameServerHandlers.cs:594-653 | staff text starting with '/' is a command; type 0 shows "name: text", type 1 "name! text", type 2 the text; any other type disconnects |
| Chat.ChatLineKeepsText | src/Hades.Server.Base/Network/Game/GameServerHandlers.cs:630-648 | every line shown ends with the typed text and names the speaker unless of type 2 |
| Chat.Emote | src/Hades.Server.Base/Network/Game/GameServerHandlers.cs:985-991 | an emote shows exactly for ids up to 35, as animation id + 9 truncated to a byte (9..44 for ids 0..35) |
| Chat.ToggleParty | src/Hades.Server.Base/Network/Game/GameServerHandlers.cs:1111-1118 | accepting and not accepting requests swap; any other status is kept |
| Chat.TogglePartyTwice | src/Hades.Server.Base/Network/Game/GameServerHandlers.cs:1111-1118 | toggling twice restores the status |
| Character.Aisling.TogglePartyStatus | src/Hades.Server.Base/Network/Game/GameServerHandlers.cs:1109-1118 | the new status is the toggle of the old; no other field of the player changes |
| Boards.FindBoard | src/Hades.Server.Base/Network/Game/GameServerHandlers.cs:1658-1660 | the board found is the first with the index; none only when no board has it |
| Boards.AddPost | src/Hades.Server.Base/Network/Game/GameServerHandlers.cs:1684-1696 | the post is appended after the old posts with id equal to the old count plus one, as a 16-bit value |
| Boards.AddKeepsNumbering | src/Hades.Server.Base/Network/Game/GameServerHandlers.cs:1692 | adding keeps post ids equal to positions plus one on a board without deletions |
| Boards.AddAfterDeleteRepeatsId | src/Hades.Server.Base/Network/Game/GameServerHandlers.cs:1692 | after a delete, the next post repeats an id still on the board |
| Boards.RemoveAt | src/Hades.Server.Base/Network/Game/GameServerHandlers.cs:1750 | the posts before the position stay and the ones after it move down by one |
| Boards.Owner | src/Hades.Server.Base/Network/Game/GameServerHandlers.cs:1741-1743 | a post on board 0 belongs to its recipient and one elsewhere to its sender; only a board-0 post without recipient has no owner |
| Boards.Delete | src/Hades.Server.Base/Network/Game/GameServerHandlers.cs:1738-1766 | deletes exactly the post at TopicIndex-1, and only when its owner (recipient on board 0, sender elsewhere) equals the user ignoring case; an empty board is silent; other cases are refused with the list unchanged |
| Boards.DeleteRemovesOne | src/Hades.Server.Base/Network/Game/GameServerHandlers.cs:1741-1758 | putting the deleted post back in its place gives the old list |
| Boards.DeleteNeedsOwner | src/Hades.Server.Base/Network/Game/GameServerHandlers.cs:1741-1746 | another user deletes the same post exactly when their name has the same lower-cased key |
| Boards.Read | src/Hades.Server.Base/Network/Game/GameServerHandlers.cs:1656-1674 | a post is found exactly when its position is on the board; a position below one faults |
| Boards.BoardCache.ReadPost | src/Hades.Server.Base/Network/Game/GameServerHandlers.cs:1656-1674 | a post is found exactly when the first board with the index exists and the position is 1..its post count, and it is post TopicIndex-1 of that board; a position below one on an existing board faults |
| Boards.BoardCache.Submit | src/Hades.Server.Base/Network/Game/GameServerHandlers.cs:1676-1730 | mail (with recipient) and posts (without) are appended to the first board with the index, if there is one; otherwise nothing changes |
| Boards.BoardCache.DeletePost | src/Hades.Server.Base/Network/Game/GameServerHandlers.cs:1732-1769 | the board's posts change exactly as the delete rule says, and no other board changes |

## Left out

- The packet writer's source: the encodings above are assumptions. Endianness does not matter for the two small formats, whose 16-bit writes are all zero.
- The widths of `PointX`, `PointY`, `AreaID`, `ItemAmount`, `GoldAmount`, `Gold`, `TopicIndex`, the emote number, the settings index, the dialog `Step` and `ScriptId` and the chat `Type` are not visible. The portal fields are taken as 16-bit, the dialog step and script id as natural numbers, and the chat type as a byte; the others are unbounded integers, so 32-bit overflow of gold is not modelled.
- The configured game-master list is taken to be present. `LoadPlayer` calls `Any()` on it without a null guard, so a missing list would throw before the redirect check and consume nothing; `Login.EnterWorld` does not model that throw.
- The declarations of the five primary stats (`_Str`, `_Int`, `_Wis`, `_Con`, `_Dex`), `StatCap` and an item's `Stacks` are not visible either. They are taken to be bytes (`u8`), which the `(byte)` casts on stacks and the wrap-then-repair rule of stat allocation suggest. `Login.PlayerRecord` keeps `Str` as an unbounded integer, because the sanity check `Str <= 0` is stated for any width.
- Network sends, messages, `Show`, map streaming, `SendStats`: I/O. Where a handler's result is a message, the model returns it as an outcome.
- Locks and async: the redirect consume is one atomic step; concurrent board access is not modelled.
- Item, merchant, map, reactor and popup scripts (`OnUse`, `OnResponse`, `OnGossip`, `OnDropped`, `OnItemDropped`, decorators, dialog callbacks) and `Commander.ParseChatMessage` are calls into code not part of this model. Whether an item's scripts ran is a parameter.
- `Party.AddPartyMember`, `RemovePartyMember` and `DisbandParty` after the party toggle, `EquipmentManager.RemoveFromInventory` (taken to succeed), `Money.Create`, `FinishExchange` and `CancelExchange` are not visible. The exchange model stops at whether the finish is called.
- The menu interpreter's `Move`, `Start` and `GetCurrentStep` internals and the YAML menu loading: a move is reported by the answer id it is given.
- The sanity guards every handler starts with (logged in, map ready, dead, skulled, asleep, frozen, refreshing, casting): they make a handler do nothing or only send a message.
- The distance and wall checks of a drop are folded into one `reachable` parameter; positions on the map are not modelled.
- The per-item `Slot` field is the key of the pane's map.
- `Aisling` holds the five primary stats as one `stats` value. The stat handler assigns them together after computing all five, which is the same as its five stores, since nothing reads a stat in between.
- Board type 0x01 (board list) and 0x02 (show a board) only send. The clone of board 0 from `Community` and the aliasing between `Community` and `GlobalBoardCache` are not modelled.
- Persistence, save timing, serial generation, logging, wall-clock time, duplicate-client eviction and `ValidateRedirect`.
- The `Secured`/`Command` values of `ServerFormat2E` and `EncryptionReceived` are constants of their classes (`secured`, `command`) with no contract of their own.
- `Toggle()` on a setting is not visible; it is taken to flip `Enabled`.
- Text case mapping (`ToLower`, `OrdinalIgnoreCase`) is modelled on ASCII letters only; the salt's UTF-8 decoding is taken as already done.
- Chat.ChatLine: `StartsWith("/")` is taken as an ordinal prefix test.
