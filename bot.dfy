/**
 * The bot of Bot.cs: the roll engine, the user-id codec, the query-token
 * extraction, the balance initialisation and the decision logic of the
 * message handler over the ledger and the roll table.
 */
module Bot {
  import opened Wrappers
  import opened Models
  import opened Utility
  import opened Database

  const RollCost := 100
  const StartingBalance := 500

  /** The rarity tiers the table can produce. */
  const Tiers: set<int> := {1, 2, 3, 4, 5, 6, 7, 10}

  // ---------------------------------------------------------------- roll engine

  /** The cumulative rarity table applied to the draw. */
  function StarRating(roll: int): (r: Int32)
    ensures r in Tiers
  {
    if roll <= 40 then 1
    else if roll <= 65 then 2
    else if roll <= 80 then 3
    else if roll <= 90 then 4
    else if roll <= 95 then 5
    else if roll <= 98 then 6
    else if roll <= 99 then 7
    else 10
  }

  /** Each band of the table at both of its ends. */
  lemma StarRatingBoundaries()
    ensures StarRating(1) == 1 && StarRating(40) == 1
    ensures StarRating(41) == 2 && StarRating(65) == 2
    ensures StarRating(66) == 3 && StarRating(80) == 3
    ensures StarRating(81) == 4 && StarRating(90) == 4
    ensures StarRating(91) == 5 && StarRating(95) == 5
    ensures StarRating(96) == 6 && StarRating(98) == 6
    ensures StarRating(99) == 7 && StarRating(100) == 10
  {
  }

  /** A higher draw never gives a lower tier. */
  lemma StarRatingMonotone(a: int, b: int)
    requires a <= b
    ensures StarRating(a) <= StarRating(b)
  {
  }

  /**
   * A roll from its draws: the tier from the table, the stats as drawn. The
   * element draw is consumed and discarded.
   */
  function GetRollResult(d: RollDraws): (r: RollResult)
    ensures r.starRating == StarRating(d.roll)
    ensures r.attack == d.attack && r.defense == d.defense && r.speed == d.speed
    ensures DrawsInRange(d) ==> 1 <= r.attack <= 100 && 1 <= r.defense <= 100 && 1 <= r.speed <= 100
  {
    RollResult(StarRating(d.roll), d.attack, d.defense, d.speed)
  }

  // ---------------------------------------------------------------- user ids

  predicate IsDigit(c: char) {
    '0' <= c <= '9'
  }

  function DigitChar(d: nat): (c: char)
    requires d < 10
    ensures IsDigit(c) && c as int - '0' as int == d
  {
    ('0' as int + d) as char
  }

  /** `ulong.ToString()`: the decimal digits of the id, without leading zeros. */
  function IdString(n: nat): (s: string)
    ensures |s| >= 1
    ensures forall i :: 0 <= i < |s| ==> IsDigit(s[i])
    ensures |s| > 1 ==> s[0] != '0'
    decreases n
  {
    if n < 10 then [DigitChar(n)] else IdString(n / 10) + [DigitChar(n % 10)]
  }

  /** The number a string of decimal digits denotes. */
  function DigitsValue(s: string): nat
    requires forall i :: 0 <= i < |s| ==> IsDigit(s[i])
  {
    if s == [] then 0
    else
      assert IsDigit(s[|s| - 1]);
      DigitsValue(s[..|s| - 1]) * 10 + (s[|s| - 1] as int - '0' as int)
  }

  /** `ulong.Parse(s)` on plain digit strings: fails on an empty string, a non-digit or an overflow. */
  function ParseULong(s: string): (r: Option<UInt64>)
    ensures r.Some? ==> s != [] && forall i :: 0 <= i < |s| ==> IsDigit(s[i])
  {
    if s != [] && forall i :: 0 <= i < |s| ==> IsDigit(s[i]) then
      var v := DigitsValue(s);
      if v < 0x1_0000_0000_0000_0000 then Some(v) else None
    else None
  }

  lemma {:induction false} DigitsOfIdString(n: nat)
    ensures DigitsValue(IdString(n)) == n
    decreases n
  {
    var s := IdString(n);
    if n >= 10 {
      DigitsOfIdString(n / 10);
      assert s[..|s| - 1] == IdString(n / 10);
    }
  }

  /** An id written with `ToString` is read back by `ulong.Parse` unchanged. */
  lemma IdStringRoundTrip(n: UInt64)
    ensures ParseULong(IdString(n)) == Some(n)
  {
    DigitsOfIdString(n);
  }

  /** Distinct ids are written as distinct strings, so ledger keys and owner ids never collide. */
  lemma IdStringInjective(a: UInt64, b: UInt64)
    ensures IdString(a) == IdString(b) ==> a == b
  {
    IdStringRoundTrip(a);
    IdStringRoundTrip(b);
  }

  // ---------------------------------------------------------------- commands

  /** `char.IsWhiteSpace`: the Unicode separators and the control characters U+0009 to U+000D and U+0085. */
  predicate IsWhiteSpace(c: char) {
    || c == ' ' || '\t' <= c <= '\r' || c == '\U{85}' || c == '\U{A0}' || c == '\U{1680}'
    || '\U{2000}' <= c <= '\U{200A}' || c == '\U{2028}' || c == '\U{2029}' || c == '\U{202F}'
    || c == '\U{205F}' || c == '\U{3000}'
  }

  /** `string.IsNullOrWhiteSpace`. */
  predicate IsNullOrWhiteSpace(s: string) {
    forall i :: 0 <= i < |s| ==> IsWhiteSpace(s[i])
  }

  /** `TrimStart()`: drops the leading white space, keeps the rest. */
  function TrimStart(s: string): (r: string)
    ensures |r| <= |s| && r == s[|s| - |r|..]
    ensures forall i :: 0 <= i < |s| - |r| ==> IsWhiteSpace(s[i])
    ensures r == [] || !IsWhiteSpace(r[0])
  {
    if s != [] && IsWhiteSpace(s[0]) then TrimStart(s[1..]) else s
  }

  /** `TrimEnd()`: drops the trailing white space, keeps the rest. */
  function TrimEnd(s: string): (r: string)
    ensures |r| <= |s| && r == s[..|r|]
    ensures forall i :: |r| <= i < |s| ==> IsWhiteSpace(s[i])
    ensures r == [] || !IsWhiteSpace(r[|r| - 1])
  {
    if s != [] && IsWhiteSpace(s[|s| - 1]) then TrimEnd(s[..|s| - 1]) else s
  }

  /** `r` is the slice of `s` at `a`, and all of `s` before and after it is white space. */
  ghost predicate StrippedAt(s: string, r: string, a: int) {
    && 0 <= a && a + |r| <= |s| && r == s[a..a + |r|]
    && (forall i :: 0 <= i < a ==> IsWhiteSpace(s[i]))
    && (forall i :: a + |r| <= i < |s| ==> IsWhiteSpace(s[i]))
  }

  /** `r` is a slice of `s` from which only white space was cut at either end. */
  ghost predicate WhiteSpaceStripped(s: string, r: string) {
    exists a :: StrippedAt(s, r, a)
  }

  /**
   * `Trim()`: the string with its leading and trailing white space cut off;
   * empty exactly for an all-white-space string, and otherwise neither end
   * is white space.
   */
  function Trim(s: string): (r: string)
    ensures WhiteSpaceStripped(s, r)
    ensures r == [] <==> IsNullOrWhiteSpace(s)
    ensures r != [] ==> !IsWhiteSpace(r[0]) && !IsWhiteSpace(r[|r| - 1])
  {
    var t := TrimStart(s);
    var r := TrimEnd(t);
    StrippedTwice(s, t, r);
    assert r != [] ==> r[0] == t[0];
    r
  }

  /** Cutting white space off the front and then off the back leaves a stripped slice. */
  lemma StrippedTwice(s: string, t: string, r: string)
    requires |t| <= |s| && t == s[|s| - |t|..]
    requires forall i :: 0 <= i < |s| - |t| ==> IsWhiteSpace(s[i])
    requires |r| <= |t| && r == t[..|r|]
    requires forall i :: |r| <= i < |t| ==> IsWhiteSpace(t[i])
    ensures StrippedAt(s, r, |s| - |t|)
  {
    var a := |s| - |t|;
    assert r == s[a..a + |r|];
    forall i | a + |r| <= i < |s|
      ensures IsWhiteSpace(s[i])
    {
      assert s[i] == t[i - a];
    }
  }

  predicate StartsWith(s: string, prefix: string) {
    |prefix| <= |s| && s[..|prefix|] == prefix
  }

  /** The command keywords, in the order the handler tests them. */
  datatype Command = Hello | Roll | MyRolls | Query | BalanceCheck | NoCommand

  function CommandOf(content: string): Command {
    if StartsWith(content, ">hello") then Hello
    else if StartsWith(content, ">roll") then Roll
    else if StartsWith(content, ">myrolls") then MyRolls
    else if StartsWith(content, ">query") then Query
    else if StartsWith(content, ">balance") then BalanceCheck
    else NoCommand
  }

  /**
   * The keywords differ in their second character, so a message starts with
   * at most one of them: the handler's chain of independent tests runs at
   * most one command.
   */
  lemma CommandPrefixesExclusive(content: string)
    ensures StartsWith(content, ">hello") <==> CommandOf(content) == Hello
    ensures StartsWith(content, ">roll") <==> CommandOf(content) == Roll
    ensures StartsWith(content, ">myrolls") <==> CommandOf(content) == MyRolls
    ensures StartsWith(content, ">query") <==> CommandOf(content) == Query
    ensures StartsWith(content, ">balance") <==> CommandOf(content) == BalanceCheck
  {
    if |content| >= 2 {
      assert StartsWith(content, ">hello") ==> content[1] == 'h';
      assert StartsWith(content, ">roll") ==> content[1] == 'r';
      assert StartsWith(content, ">myrolls") ==> content[1] == 'm';
      assert StartsWith(content, ">query") ==> content[1] == 'q';
      assert StartsWith(content, ">balance") ==> content[1] == 'b';
    }
  }

  /** The search token of a `>query` message: what follows the keyword, trimmed. */
  function QueryToken(content: string): (token: string)
    requires StartsWith(content, ">query")
    ensures WhiteSpaceStripped(content[|">query"|..], token)
    ensures token == [] <==> IsNullOrWhiteSpace(content[|">query"|..])
    ensures token != [] ==> !IsWhiteSpace(token[0]) && !IsWhiteSpace(token[|token| - 1])
  {
    Trim(content[|">query"|..])
  }

  /** After trimming, "null or white space" means "empty". */
  lemma TrimmedBlankIsEmpty(s: string)
    ensures IsNullOrWhiteSpace(Trim(s)) <==> Trim(s) == []
  {
  }

  // ---------------------------------------------------------------- balances

  /** The ledger after `InitializeUserBalance`: 500 written exactly when the balance reads 0. */
  function Initialized(balances: map<string, int>, userId: string): (m: map<string, int>)
    ensures BalanceOf(m, userId) != 0
    ensures forall u :: u != userId ==> BalanceOf(m, u) == BalanceOf(balances, u)
  {
    if BalanceOf(balances, userId) == 0 then balances[userId := StartingBalance] else balances
  }

  /** The ledger changes exactly when the user's balance reads 0, and then to 500. */
  lemma InitializedChangesOnlyAtZero(balances: map<string, int>, userId: string)
    ensures Initialized(balances, userId) != balances <==> BalanceOf(balances, userId) == 0
    ensures BalanceOf(balances, userId) == 0 ==> BalanceOf(Initialized(balances, userId), userId) == StartingBalance
  {
    if BalanceOf(balances, userId) == 0 {
      assert BalanceOf(Initialized(balances, userId), userId) == StartingBalance;
    }
  }

  /** Initialising twice is initialising once. */
  lemma InitializedIdempotent(balances: map<string, int>, userId: string)
    ensures Initialized(Initialized(balances, userId), userId) == Initialized(balances, userId)
  {
  }

  /**
   * The grant is not once per user: a user whose balance was spent down to 0
   * is granted 500 again.
   */
  lemma RegrantAtZero(balances: map<string, int>, userId: string)
    requires userId in balances && balances[userId] == 0
    ensures BalanceOf(Initialized(balances, userId), userId) == StartingBalance
  {
  }

  method InitializeUserBalance(ledger: Ledger, userId: UInt64)
    modifies ledger
    ensures ledger.balances == Initialized(old(ledger.balances), IdString(userId))
    ensures old(ledger.Valid()) ==> ledger.Valid()
  {
    if ledger.GetUserBalance(IdString(userId)) == 0 {
      ledger.SetUserBalance(IdString(userId), StartingBalance);
    }
  }

  // ---------------------------------------------------------------- the handler

  /** What the handler reads of an incoming message. */
  datatype Message = Message(authorIsBot: bool, authorId: UInt64, username: string,
                             guild: Option<UInt64>, content: string)

  /** The outcomes of the random draws and the outbound requests a roll makes. */
  datatype RollInputs = RollInputs(
    draws: RollDraws,
    elementDraw: Int32,
    deductAvailable: bool,
    image: Fetch<Option<string>>,
    words: Fetch<(string, string)>)

  /** What the handler sends back; `Faulted` is an exception escaping the handler. */
  datatype Reply =
    | ServerOnly
    | Greeting(username: string)
    | InsufficientMunny
    | DeductionFailed
    | RollGet(result: RollResult, emoji: string, rollName: string, imageUrl: string)
    | NoImage
    | RollHistory(entries: seq<UserRollEntry>)
    | NoHistory
    | MissingQuery
    | QueryRequest(token: string)
    | BalanceReport(balance: int)
    | Faulted

  /** A message the handler acts on: from a person, in a server. */
  predicate Handled(msg: Message) {
    !msg.authorIsBot && msg.guild.Some?
  }

  /** The row a paid roll inserts: user id and owner id are both the author. */
  function RolledRow(id: int, userId: string, inputs: RollInputs): (row: Row)
    requires inputs.image.Response? && 0 <= inputs.elementDraw < 3
    ensures row.userId == userId && row.ownerId == userId
    ensures ParseElement(row.element) == Some(ElementOf(inputs.elementDraw))
  {
    ElementNameRoundTrip(ElementOf(inputs.elementDraw));
    var result := GetRollResult(inputs.draws);
    Row(id, userId, result.starRating, GetChar(inputs.image.body), GetRandomRollName(inputs.words),
        ElementName(ElementOf(inputs.elementDraw)), result.attack, result.defense, result.speed, userId)
  }

  /** The owner id column written with a roll parses back, by `ulong.Parse`, to the author's id. */
  lemma StoredOwnerParses(id: int, authorId: UInt64, inputs: RollInputs)
    requires inputs.image.Response? && 0 <= inputs.elementDraw < 3
    ensures ParseULong(RolledRow(id, IdString(authorId), inputs).ownerId) == Some(authorId)
  {
    IdStringRoundTrip(authorId);
  }

  /** The reply to a paid roll: the embed, or an apology when the image URL is empty. */
  function RollReply(inputs: RollInputs): (reply: Reply)
    requires inputs.image.Response? && 0 <= inputs.elementDraw < 3
    ensures reply == NoImage <==> inputs.image.body == Some("")
  {
    var imageUrl := GetChar(inputs.image.body);
    if imageUrl == "" then NoImage
    else RollGet(GetRollResult(inputs.draws), GetElementEmoji(ElementOf(inputs.elementDraw)),
                 GetRandomRollName(inputs.words), imageUrl)
  }

  /** The state a roll acts on: the ledger's balances, the table's rows and its id counter. */
  datatype Store = Store(balances: map<string, int>, rows: seq<Row>, lastId: int)

  /**
   * The roll command against an initialised ledger: refuse without funds,
   * stop when the deduction fails, fault when the image request throws, and
   * otherwise charge the cost and insert one row.
   */
  function RollStep(s: Store, userId: string, inputs: RollInputs): (r: (Store, Reply))
    requires 0 <= inputs.elementDraw < 3
  {
    var funds := BalanceOf(s.balances, userId);
    if funds < RollCost then (s, InsufficientMunny)
    else if !inputs.deductAvailable then (s, DeductionFailed)
    else
      var paid := s.balances[userId := funds - RollCost];
      if inputs.image.RequestFailed? then (s.(balances := paid), Faulted)
      else (Store(paid, s.rows + [RolledRow(s.lastId + 1, userId, inputs)], s.lastId + 1), RollReply(inputs))
  }

  /** Ids the table's invariant admits: positive, at most the counter, increasing. */
  ghost predicate IdsValid(s: Store) {
    && 0 <= s.lastId
    && (forall i :: 0 <= i < |s.rows| ==> 1 <= s.rows[i].id <= s.lastId)
    && IdsIncreasing(s.rows)
  }

  ghost predicate BalancesNonNegative(balances: map<string, int>) {
    forall u :: u in balances ==> balances[u] >= 0
  }

  /** A roll without 100 munny, or whose deduction fails, changes nothing. */
  lemma RollRefusedChangesNothing(s: Store, userId: string, inputs: RollInputs)
    requires 0 <= inputs.elementDraw < 3
    requires BalanceOf(s.balances, userId) < RollCost || !inputs.deductAvailable
    ensures RollStep(s, userId, inputs).0 == s
    ensures RollStep(s, userId, inputs).1 in {InsufficientMunny, DeductionFailed}
  {
  }

  /**
   * A row is inserted exactly when the funds cover the cost, the deduction
   * succeeds and the image request returns; the row is the author's, under a
   * fresh id, and the author paid exactly the cost. An empty image URL only
   * changes the reply.
   */
  lemma RollInsertsExactlyOne(s: Store, userId: string, inputs: RollInputs)
    requires 0 <= inputs.elementDraw < 3
    ensures var after := RollStep(s, userId, inputs).0;
      |after.rows| != |s.rows| <==>
        BalanceOf(s.balances, userId) >= RollCost && inputs.deductAvailable && inputs.image.Response?
    ensures var after := RollStep(s, userId, inputs).0;
      |after.rows| != |s.rows| ==>
        && |after.rows| == |s.rows| + 1
        && after.rows[..|s.rows|] == s.rows
        && after.rows[|s.rows|].userId == userId
        && after.rows[|s.rows|].ownerId == userId
        && after.rows[|s.rows|].id == s.lastId + 1
        && BalanceOf(after.balances, userId) == BalanceOf(s.balances, userId) - RollCost
        && (forall u :: u != userId ==> BalanceOf(after.balances, u) == BalanceOf(s.balances, u))
  {
    var after := RollStep(s, userId, inputs).0;
    if |after.rows| != |s.rows| {
      assert after.rows == s.rows + [RolledRow(s.lastId + 1, userId, inputs)];
    }
  }

  /** The charge is taken before the image request, so a failing request costs the roll. */
  lemma FaultedRollStillCharges(s: Store, userId: string, inputs: RollInputs)
    requires 0 <= inputs.elementDraw < 3
    requires BalanceOf(s.balances, userId) >= RollCost && inputs.deductAvailable && inputs.image.RequestFailed?
    ensures RollStep(s, userId, inputs).1 == Faulted
    ensures RollStep(s, userId, inputs).0.rows == s.rows
    ensures BalanceOf(RollStep(s, userId, inputs).0.balances, userId) == BalanceOf(s.balances, userId) - RollCost
  {
  }

  /** A roll keeps every balance non-negative and the ids unique and increasing. */
  lemma RollPreservesInvariants(s: Store, userId: string, inputs: RollInputs)
    requires 0 <= inputs.elementDraw < 3
    requires BalancesNonNegative(s.balances) && IdsValid(s)
    ensures BalancesNonNegative(RollStep(s, userId, inputs).0.balances)
    ensures IdsValid(RollStep(s, userId, inputs).0)
  {
  }

  /** The `>roll` branch of `MessageReceivedAsync`, for an author whose balance is initialised. */
  method RollCommand(ledger: Ledger, table: RollTable, userId: string, inputs: RollInputs)
    returns (reply: Reply)
    requires ledger.Valid() && table.Valid()
    requires 0 <= inputs.elementDraw < 3
    modifies ledger, table
    ensures ledger.Valid() && table.Valid()
    ensures old(table.WellFormed()) ==> table.WellFormed()
    ensures var step := RollStep(Store(old(ledger.balances), old(table.rows), old(table.lastId)), userId, inputs);
      && ledger.balances == step.0.balances
      && table.rows == step.0.rows && table.lastId == step.0.lastId
      && reply == step.1
  {
    if ledger.GetUserBalance(userId) < RollCost {
      return InsufficientMunny;
    }
    var deducted := ledger.DeductUserBalance(userId, RollCost, inputs.deductAvailable);
    if !deducted {
      return DeductionFailed;
    }
    var result := GetRollResult(inputs.draws);
    if inputs.image.RequestFailed? {
      return Faulted;
    }
    var imageUrl := GetChar(inputs.image.body);
    var rollName := GetRandomRollName(inputs.words);
    var element := ElementOf(inputs.elementDraw);
    ElementNameRoundTrip(element);
    table.InsertUserRoll(userId, result.starRating, imageUrl, rollName, ElementName(element),
                         result.attack, result.defense, result.speed, userId);
    var emoji := GetElementEmoji(element);
    if imageUrl == "" {
      reply := NoImage;
    } else {
      reply := RollGet(result, emoji, rollName, imageUrl);
    }
  }

  /** The `>myrolls` branch of `MessageReceivedAsync`: list the author's rolls, or say there are none. */
  method MyRollsCommand(table: RollTable, userId: string) returns (reply: Reply)
    ensures var listed := DecodeAll(Select(table.rows, userId));
      && (listed.None? ==> reply == Faulted)
      && (listed.Some? && listed.value == [] ==> reply == NoHistory)
      && (listed.Some? && listed.value != [] ==>
            reply.RollHistory? && multiset(reply.entries) == multiset(listed.value))
  {
    var rolls := table.GetUserRolls(userId);
    if rolls.None? {
      return Faulted;
    }
    if |rolls.value| > 0 {
      reply := RollHistory(rolls.value);
    } else {
      reply := NoHistory;
    }
  }

  /**
   * The command part of `MessageReceivedAsync`, once the author's balance is
   * initialised. The handler tests each prefix in turn; by
   * `CommandPrefixesExclusive` at most one test succeeds, the one `CommandOf`
   * names, so dispatching on `CommandOf` runs the same branch.
   */
  method HandleCommand(ledger: Ledger, table: RollTable, msg: Message, inputs: RollInputs)
    returns (replies: seq<Reply>)
    requires ledger.Valid() && table.Valid()
    requires 0 <= inputs.elementDraw < 3
    modifies ledger, table
    ensures ledger.Valid() && table.Valid()
    ensures old(table.WellFormed()) ==> table.WellFormed()
    ensures CommandOf(msg.content) != Roll ==>
      && ledger.balances == old(ledger.balances)
      && table.rows == old(table.rows) && table.lastId == old(table.lastId)
    ensures CommandOf(msg.content) == Roll ==>
      var step := RollStep(Store(old(ledger.balances), old(table.rows), old(table.lastId)),
                           IdString(msg.authorId), inputs);
      && ledger.balances == step.0.balances
      && table.rows == step.0.rows && table.lastId == step.0.lastId
      && replies == [step.1]
    ensures CommandOf(msg.content) == Hello ==> replies == [Greeting(msg.username)]
    ensures CommandOf(msg.content) == MyRolls ==>
      var listed := DecodeAll(Select(old(table.rows), IdString(msg.authorId)));
      && |replies| == 1
      && (listed.None? ==> replies[0] == Faulted)
      && (listed.Some? && listed.value == [] ==> replies[0] == NoHistory)
      && (listed.Some? && listed.value != [] ==>
            replies[0].RollHistory? && multiset(replies[0].entries) == multiset(listed.value))
    ensures CommandOf(msg.content) == Query ==>
      var token := QueryToken(msg.content);
      replies == [if IsNullOrWhiteSpace(token) then MissingQuery else QueryRequest(token)]
    ensures CommandOf(msg.content) == BalanceCheck ==>
      replies == [BalanceReport(BalanceOf(old(ledger.balances), IdString(msg.authorId)))]
    ensures CommandOf(msg.content) == NoCommand ==> replies == []
  {
    match CommandOf(msg.content)
    case Hello =>
      replies := [Greeting(msg.username)];
    case Roll =>
      var reply := RollCommand(ledger, table, IdString(msg.authorId), inputs);
      replies := [reply];
    case MyRolls =>
      var reply := MyRollsCommand(table, IdString(msg.authorId));
      replies := [reply];
    case Query =>
      CommandPrefixesExclusive(msg.content);
      var token := QueryToken(msg.content);
      if IsNullOrWhiteSpace(token) {
        replies := [MissingQuery];
      } else {
        replies := [QueryRequest(token)];
      }
    case BalanceCheck =>
      var balance := ledger.GetUserBalance(IdString(msg.authorId));
      replies := [BalanceReport(balance)];
    case NoCommand =>
      replies := [];
  }

  /** `MessageReceivedAsync`. */
  method MessageReceived(ledger: Ledger, table: RollTable, msg: Message, inputs: RollInputs)
    returns (replies: seq<Reply>)
    requires ledger.Valid() && table.Valid()
    requires 0 <= inputs.elementDraw < 3
    modifies ledger, table
    ensures ledger.Valid() && table.Valid()
    ensures old(table.WellFormed()) ==> table.WellFormed()
    ensures !Handled(msg) ==>
      && ledger.balances == old(ledger.balances)
      && table.rows == old(table.rows) && table.lastId == old(table.lastId)
    ensures msg.authorIsBot ==> replies == []
    ensures !msg.authorIsBot && msg.guild.None? ==> replies == [ServerOnly]
    ensures Handled(msg) && CommandOf(msg.content) != Roll ==>
      && ledger.balances == Initialized(old(ledger.balances), IdString(msg.authorId))
      && table.rows == old(table.rows) && table.lastId == old(table.lastId)
    ensures Handled(msg) && CommandOf(msg.content) == Roll ==>
      var userId := IdString(msg.authorId);
      var step := RollStep(Store(Initialized(old(ledger.balances), userId), old(table.rows), old(table.lastId)),
                           userId, inputs);
      && ledger.balances == step.0.balances
      && table.rows == step.0.rows && table.lastId == step.0.lastId
      && replies == [step.1]
    ensures Handled(msg) && CommandOf(msg.content) == Hello ==> replies == [Greeting(msg.username)]
    ensures Handled(msg) && CommandOf(msg.content) == MyRolls ==>
      var listed := DecodeAll(Select(old(table.rows), IdString(msg.authorId)));
      && |replies| == 1
      && (listed.None? ==> replies[0] == Faulted)
      && (listed.Some? && listed.value == [] ==> replies[0] == NoHistory)
      && (listed.Some? && listed.value != [] ==>
            replies[0].RollHistory? && multiset(replies[0].entries) == multiset(listed.value))
    ensures Handled(msg) && CommandOf(msg.content) == Query ==>
      var token := QueryToken(msg.content);
      replies == [if IsNullOrWhiteSpace(token) then MissingQuery else QueryRequest(token)]
    ensures Handled(msg) && CommandOf(msg.content) == BalanceCheck ==>
      var userId := IdString(msg.authorId);
      replies == [BalanceReport(BalanceOf(Initialized(old(ledger.balances), userId), userId))]
    ensures Handled(msg) && CommandOf(msg.content) == NoCommand ==> replies == []
  {
    replies := [];
    if msg.authorIsBot {
      return;
    }
    if msg.guild.None? {
      replies := [ServerOnly];
      return;
    }
    InitializeUserBalance(ledger, msg.authorId);
    replies := HandleCommand(ledger, table, msg, inputs);
  }
}
