# A verified model of the momiji3 gacha bot

momiji3 is a Discord bot for a "gacha" game. In a server, a user spends 100
munny on `>roll` and gets a character with a star rating, an element (Water,
Fire or Grass) and attack, defense and speed stats. The roll is stored in a
SQLite table, `>myrolls` lists the user's rolls back, `>balance` reports the
munny balance, and `>query` forwards a search token. Every handled message
first grants a starting balance of 500 when the user's balance reads 0.
`Program.cs` holds an older version of the bot. It has no munny and no
database: rolls are kept in memory, as a list of per-user records.

The model is written in Dafny, with one module per source file:

- `Models` (`models.dfy`): the element enum, its ordinal and name codecs,
  the roll and entry records, and the per-user record class.
- `Utility` (`utility.dfy`): the emoji of an element, the format and
  fallback of the generated roll name, and the fallback of the image URL.
- `Database` (`database.dfy`):
  - `RollTable`, the `UserRolls` table with its AUTOINCREMENT counter,
    including the ordinal-column decode of the `SELECT`;
  - `Ledger`, the munny balances the bot reads and writes.
- `Bot` (`bot.dfy`):
  - the rarity table and the stat draws;
  - `InitializeUserBalance`;
  - the decision logic of `MessageReceivedAsync`: the guild check, roll
    gating, the insert, the query token and the balance read.
- `Program` (`program.dfy`): the older bot. Its roll engine, element draw,
  in-memory store (`SaveRollResult`, `GetUserRolls`) and message handler.
  Its `GetElementEmoji` (Program.cs:282-291), `GetAnimeGirl`
  (Program.cs:192-198) and `GetRandomRollName` (Program.cs:243-268) are the
  same code as the helpers in `Utility.cs`, and the model uses the
  `Utility` members `GetElementEmoji`, `GetChar` and `GetRandomRollName`
  for them.
- `Wrappers` (`wrappers.dfy`): an `Option` type.

Randomness and I/O are inputs to the model:

- Every `Random.Next` result is a parameter. `RollDraws` holds the rarity,
  element and stat draws.
- Every HTTP request is a `Fetch` value: the parsed reply, or
  `RequestFailed` for an `HttpRequestException`.
- The store's answer to a deduction is a boolean parameter.

The preconditions are of three kinds:

- the range `Next(0, 3)` guarantees for an element draw, the only draw
  range any operation requires (a stat draw outside 1..100 is accepted,
  and the 1..100 bound of the stats is stated for draws in that range);
- the invariants of the ledger, the table and the older store (`Valid()`);
- the facts a branch of the source has already established when it
  calls a helper: a returned image request for the row and reply of a
  paid roll, the `>query` prefix for the query token, and an adjective
  without spaces for splitting a roll name back into its words.

The quirks of the code are modelled as written and proved as such:

- A balance of 0 is refilled to 500 on every message, not once per user.
- The insert happens before the empty-image check.
- The older bot stores the stats of a second roll, not the one it showed.
- The guild id passed to the two-argument `GetUserRolls` is dropped.

In these places the code behaves in ways a reader may not expect; the model follows the code:

- An image request that throws is not caught. The `>roll` handler then
  faults after the munny was deducted, and no row is inserted.
- A roll whose image URL is empty is still stored and paid for. Only the
  reply changes.
- The bot inserts nine values, the eight-argument form in `Database.cs`
  plus an owner id. The table therefore carries an `OwnerId` column after
  `Speed`.
- The `SELECT` decode reads ordinals 2–8 and sets neither `Id` nor
  `OwnerId`. The decoded entry leaves `Id` at 0 and `OwnerId` absent
  (`Database.ListedEntriesLackIdAndOwner`). The owner id is only known to
  parse back to the author in the stored column (`Bot.StoredOwnerParses`).

## Model

| member | source | states |
|---|---|---|
| `Models.Ordinal` | Models.cs:30-35 | the enum's underlying values are 0, 1, 2 |
| `Models.ElementOf` | Bot.cs:88 | the cast of any value in [0,3) is the member with that underlying value |
| `Models.OrdinalRoundTrip` | Models.cs:30-35 | casting an element's underlying value back gives the element |
| `Models.ElementName` | Bot.cs:91 | `ToString` of a member is its name, of at least four characters |
| `Models.ParseElement` | Database.cs:96 | a successful `Enum.Parse` yields a member whose name is the parsed text |
| `Models.ElementNameRoundTrip` | Database.cs:96 | the name written at insert parses back to the same element, for all three members |
| `Models.ParseRejectsNonNames` | Database.cs:96 | parsing fails exactly when the text is none of the three names |
| `Models.ElementNameInjective` | Models.cs:30-35 | distinct members have distinct names |
| `Models.UserRollData.constructor` | Models.cs:11-15 | a fresh record has the given user id and an empty entry list |
| `Utility.GetChar` | Utility.cs:15 | the image URL is the `url` field when present and the default URL otherwise; it is empty only when `url` is empty |
| `Utility.ToUpper` | Utility.cs:31 | upper-casing keeps the length and maps character by character |
| `Utility.GetRandomRollName` | Utility.cs:18-38 | on a failed request the name is `DEFAULT NAME`; otherwise its length is adjective + 1 + noun with a space after the adjective; no lower-case letter ever appears |
| `Utility.RollNameSplits` | Utility.cs:31 | a name splits at its first space into exactly the upper-cased adjective and noun |
| `Utility.UpperIdentity` | Utility.cs:31 | upper-casing text without lower-case letters changes nothing |
| `Utility.DisplayedNameUnchanged` | Bot.cs:142 | upper-casing a stored name again when listing it leaves it unchanged |
| `Utility.GetElementEmoji` | Utility.cs:40-49 | every member has a non-empty emoji, so the empty default arm is unreachable |
| `Utility.EmojiInjective` | Utility.cs:40-49 | distinct elements get distinct emojis |
| `Database.Column` | Database.cs:19-29 | a row has a value at exactly the ordinals 0..9 of the schema (Id … Speed, then OwnerId) |
| `Database.DecodeRow` | Database.cs:91-100 | decoding fails exactly when the element text does not parse; a decoded entry's rarity, image, name, element and stats are the inserted values |
| `Database.Select` | Database.cs:81 | the selection never holds more rows than the table |
| `Database.SelectExactly` | Database.cs:81 | a row is selected exactly when it is in the table and its `UserId` matches |
| `Database.DecodeAll` | Database.cs:89-101 | a successful decode has one entry per selected row |
| `Database.DecodeAllSucceeds` | Database.cs:96 | listing fails exactly when some row's element does not parse |
| `Database.ListedEntriesLackIdAndOwner` | Database.cs:91-100 | every listed entry has id 0 and no owner id, as the decode sets neither |
| `Database.DecodeAllElementwise` | Database.cs:89-101 | entry i is the decode of row i |
| `Database.SelectAppend` | Database.cs:43-70 | after an insert, the selection gains the new row exactly when it belongs to that user |
| `Database.InsertThenList` | Database.cs:43-109 | inserting and then listing gives the earlier table-order selection followed by the inserted values, the element decoded back |
| `Database.InsertOtherUser` | Database.cs:43-81 | an insert for one user leaves every other user's listing as it was |
| `Database.WellFormedDecodes` | Database.cs:89-101 | when every stored element is a name, listing succeeds with one entry per row of the user |
| `Database.DecodeAllAppend` | Database.cs:91 | decoding one more row appends its entry, or fails |
| `Database.FailurePersists` | Database.cs:89-101 | once a row of the user fails to decode, the whole listing fails |
| `Database.RollTable.constructor` | Database.cs:18-29 | a new table has no rows and a counter at 0 |
| `Database.RollTable.InsertUserRoll` | Database.cs:43-70 | appends exactly one row that stores each argument in its column, with id one past the counter and greater than every existing id; earlier rows are unchanged; ids stay unique and increasing |
| `Database.RollTable.GetUserRolls` | Database.cs:73-109 | read-only; succeeds exactly when the user's rows decode, with the same entries as decoding them (as a multiset) |
| `Database.BalanceOf` | Bot.cs:70 | an unknown user's balance reads 0 |
| `Database.Ledger.constructor` | Bot.cs:215-219 | a new ledger has no balance stored |
| `Database.Ledger.GetUserBalance` | Bot.cs:70 | the stored balance, 0 when none, never negative in a valid ledger |
| `Database.Ledger.SetUserBalance` | Bot.cs:219 | writes exactly that user's balance |
| `Database.Ledger.DeductUserBalance` | Bot.cs:77-81 | all-or-nothing: it succeeds exactly when the store completes it and the funds cover the amount; then it subtracts exactly the amount, otherwise nothing changes |
| `Bot.StarRating` | Bot.cs:227-237 | every draw gives a rarity in {1,2,3,4,5,6,7,10} |
| `Bot.StarRatingBoundaries` | Bot.cs:229-236 | both ends of each band: 1–40→1, 41–65→2, 66–80→3, 81–90→4, 91–95→5, 96–98→6, 99→7, 100→10 |
| `Bot.StarRatingMonotone` | Bot.cs:227-237 | a higher draw never gives a lower rarity |
| `Bot.GetRollResult` | Bot.cs:222-253 | the rarity comes from the table and the stats are the draws, each in 1..100 when drawn by `Next(1,101)` |
| `Bot.IdString` | Bot.cs:67 | `ulong.ToString` gives a non-empty string of digits without a leading zero |
| `Bot.ParseULong` | Bot.cs:136 | `ulong.Parse` accepts only digit strings whose value fits in 64 bits |
| `Bot.IdStringRoundTrip` | Bot.cs:67 | `ulong.Parse` of the text `ToString` writes for an id gives back that id |
| `Bot.StoredOwnerParses` | Bot.cs:91 | the owner id column written with a roll parses back to the author's id |
| `Bot.IdStringInjective` | Bot.cs:67 | distinct authors get distinct table keys |
| `Bot.Trim` | Bot.cs:165 | the result is a slice of the text with only white space cut off before and after it; it is empty exactly when the text is blank, and otherwise starts and ends with non-whitespace |
| `Bot.CommandPrefixesExclusive` | Bot.cs:60-208 | at most one of the command prefixes matches, the one `CommandOf` names |
| `Bot.QueryToken` | Bot.cs:165 | the token is a slice of the text after `>query` with only white space cut off before and after it; it is empty exactly when that text is blank, and otherwise starts and ends with non-whitespace |
| `Bot.TrimmedBlankIsEmpty` | Bot.cs:165-171 | a trimmed token is blank only when it is empty |
| `Bot.Initialized` | Bot.cs:215-221 | after initialisation the user's balance is not 0 and every other balance is unchanged |
| `Bot.InitializedChangesOnlyAtZero` | Bot.cs:217-219 | the ledger changes exactly when the balance reads 0, and then to 500 |
| `Bot.InitializedIdempotent` | Bot.cs:215-221 | initialising twice is initialising once |
| `Bot.RegrantAtZero` | Bot.cs:217 | a user spent down to 0 is granted 500 again |
| `Bot.InitializeUserBalance` | Bot.cs:215-221 | the ledger becomes the initialised ledger and stays valid |
| `Bot.RolledRow` | Bot.cs:83-91 | the inserted row's user id and owner id are the author and its element text parses to the drawn element |
| `Bot.RollReply` | Bot.cs:113-120 | the reply is the "no image" message exactly when the image URL is empty |
| `Bot.RollRefusedChangesNothing` | Bot.cs:68-81 | with balance under 100, or a failed deduction, nothing changes |
| `Bot.RollInsertsExactlyOne` | Bot.cs:65-91 | a row is inserted exactly when funds, deduction and image request all succeed; it is one row of the author under a fresh id, and exactly 100 munny was taken from the author alone |
| `Bot.FaultedRollStillCharges` | Bot.cs:77-84 | a throwing image request leaves the roll paid for and not stored |
| `Bot.RollPreservesInvariants` | Bot.cs:65-91 | a roll keeps every balance non-negative and the ids unique and increasing |
| `Bot.RollCommand` | Bot.cs:65-121 | the `>roll` branch leaves the ledger, the table and the reply exactly as the roll step prescribes |
| `Bot.MyRollsCommand` | Bot.cs:123-162 | the `>myrolls` reply lists the author's decoded rolls, or says there are none, or faults on a bad row |
| `Bot.HandleCommand` | Bot.cs:59-212 | after initialisation, each command branch leaves the ledger, the table and the replies as stated; only `>roll` changes state |
| `Bot.MessageReceived` | Bot.cs:44-212 | bot messages are ignored; without a guild nothing changes and the reply is the server-only message; otherwise the balance is initialised first and each command acts as stated |
| `Program.StarRating` | Program.cs:163-173 | the older rarity switch gives a rarity between 1 and 10 |
| `Program.RarityTablesAgree` | Program.cs:162-173 | both bots give the same rarity for every draw |
| `Program.GetRollResult` | Program.cs:158-190 | the rarity is in the tier set, the element is the cast of its draw, and the stats are the draws, each in 1..100 |
| `Program.GetRandomElement` | Program.cs:292-304 | 0→Water, 1→Fire, 2→Grass, anything else→Water |
| `Program.UserRollData.constructor` | Program.cs:305-309 | a fresh record has the given user id and no entries |
| `Program.FirstIndex` | Program.cs:216-221 | `FirstOrDefault`: the first record of the user, or none when no record matches |
| `Program.FirstIndexAppend` | Program.cs:225 | appending another user's record does not change the lookup |
| `Program.LegacyBot.constructor` | Program.cs:200 | the store starts empty, with at most one record per user |
| `Program.LegacyBot.GetUserRolls` | Program.cs:214-218 | an unknown user gets an empty list; a known user gets the entries of their record, in append order |
| `Program.LegacyBot.SaveRollResult` | Program.cs:219-242 | keeps one record per user and creates one only when none exists; appends exactly one entry with the given rarity, image, name and element and the second roll's stats; other users and earlier entries are unchanged; the record list only grows, and any record it gains is newly allocated |
| `Program.StoredEntry` | Program.cs:228-238 | the stored entry has the shown rarity but the stats of the second roll |
| `Program.MessageReceived` | Program.cs:75-157 | bot messages are ignored; `>hello` greets; `>roll` faults on a throwing image request or stores one entry and replies with the shown roll; `>myrolls` lists the user's entries or says there are none; nothing else changes the store; the record list only grows, and any record it gains is newly allocated |

## Left out

- Discord: client setup, intents, logging, embed text, sending messages and owner-name lookup. A reply is one `Reply` value, and a faulted handler is `Faulted`.
- HTTP and JSON: the requests and the parsing. A request's result is an input, either a parsed reply or a failed request.
- Environment and startup: `.env`, the token, `Main`, the infinite delay and the Ctrl-C save hook.
- SQLite mechanics: connections, `InitializeDatabase`'s file check and durability. The table lives in memory.
- The JSON file persistence of the older store (`SaveData`, `LoadData`): the store lives in memory, and the user id a load would set is a constructor argument.
- Randomness: every `Random.Next` result is a parameter. The tier percentages are not modelled.
- Concurrency: the gap between the balance read and the deduction, and the `Task.Run` of the grant. The deduction is an atomic, all-or-nothing step by assumption. Its `available` flag stands for a store-side failure the model cannot see.
- The ledger methods (`GetUserBalance`, `SetUserBalance`, `DeductUserBalance`), `QueryDatabase`, the nine-argument `InsertUserRoll` and the two-argument `GetUserRolls` are called by `Bot.cs` but not defined in `Database.cs`. The ledger is a map with the behaviour the handler relies on. The nine-argument insert adds the owner id column. The two-argument listing ignores the guild id.
- Bot.MyRollsCommand: replies with the listed entries. The owner-name lookup at Bot.cs:136 is Discord plumbing and is not modelled. With the decode of Database.cs:91-100 the listed `OwnerId` is absent (`Database.ListedEntriesLackIdAndOwner`), so `ulong.Parse` there would throw on any non-empty listing. The two-argument listing the handler actually calls is not shown and may set it.
- `QueryDatabase` search semantics: the `>query` branch ends with the trimmed token it would send.
- Database.RollTable.GetUserRolls: states the listing as a multiset, not in table order, because the `SELECT` has no `ORDER BY`.
- Models.ParseElement: models `Enum.Parse` only on exact member names. Numeric strings such as "1", surrounding whitespace and comma lists, which .NET also accepts, are outside the model.
- Models.ParseRejectsNonNames: states that parsing fails on every text other than the three names, which holds of the exact-name decode only; .NET would also accept the forms above.
- Database.DecodeRow: models `Enum.Parse` only on exact member names. Numeric strings, surrounding whitespace and comma lists, which .NET also accepts, are outside the model. Every stored element name is written by `ToString`.
- Bot.ParseULong: rejects leading or trailing whitespace and a `+` sign, which .NET accepts. Only ids written by `ToString` are parsed.
- Utility.ToUpper: maps the ASCII letters only. Unicode case rules are out of scope.
- `StartsWith` is modelled as an ordinal prefix test, not a culture-sensitive one.
- The 64-bit overflow of the AUTOINCREMENT counter: ids are unbounded integers.
- Only `HttpRequestException` is caught by the name request. Any other exception, or a reply with fewer than one word, is outside the model.
- `GetRandomWord` (Program.cs:269-275) is never called and is not modelled.
