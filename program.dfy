/**
 * The older bot in `Program.cs`: the same roll engine, but without a ledger or
 * a database. Rolls are kept in memory, in a list holding one record per
 * user, and each record holds that user's entries in the order they were
 * appended.
 */
module Program {
  import opened Wrappers
  import Models
  import Utility
  import Bot

  type Int32 = Models.Int32
  type UInt64 = Models.UInt64
  type Element = Models.Element

  /** `WaifuRollResult`. */
  datatype WaifuRollResult = WaifuRollResult(
    starRating: Int32, waifuElement: Element, attack: Int32, defense: Int32, speed: Int32)

  /** `UserRollEntry` of the older store: no id and no owner. */
  datatype UserRollEntry = UserRollEntry(
    rarity: Int32, imageUrl: string, rollName: string, element: Element,
    attack: Int32, defense: Int32, speed: Int32)

  /** The rarity switch of this file's `GetRollResult`. */
  function StarRating(roll: int): (r: Int32)
    ensures 1 <= r <= 10
  {
    if roll <= 40 then 1
    else if roll <= 65 then 2
    else if roll <= 80 then 3
    else if roll <= 90 then 4
    else if roll <= 95 then 5
    else if roll <= 98 then 6
    else if roll <= 99 then 7
    else 10
  }

  /** Both bots hand out the same rarity for every draw. */
  lemma RarityTablesAgree(roll: int)
    ensures StarRating(roll) == Bot.StarRating(roll)
  {
  }

  /**
   * `GetRollResult`, given the five draws: the element is the cast of a
   * draw from 0..2, the stats are the draws themselves.
   */
  function GetRollResult(d: Models.RollDraws): (r: WaifuRollResult)
    requires 0 <= d.element < 3
    ensures r.starRating in Bot.Tiers
    ensures Models.Ordinal(r.waifuElement) == d.element
    ensures r.attack == d.attack && r.defense == d.defense && r.speed == d.speed
    ensures Models.DrawsInRange(d) ==>
      1 <= r.attack <= 100 && 1 <= r.defense <= 100 && 1 <= r.speed <= 100
  {
    RarityTablesAgree(d.roll);
    WaifuRollResult(StarRating(d.roll), Models.ElementOf(d.element), d.attack, d.defense, d.speed)
  }

  /** `GetRandomElement`, given its draw: the draw's element, or Water for anything outside 0..2. */
  function GetRandomElement(roll: int): (e: Element)
    ensures 0 <= roll < 3 ==> Models.Ordinal(e) == roll
    ensures !(0 <= roll < 3) ==> e == Models.Water
  {
    if roll == 0 then Models.Water
    else if roll == 1 then Models.Fire
    else if roll == 2 then Models.Grass
    else Models.Water
  }

  /** One user's record in the older store; nothing reassigns its user id once it is made. */
  class UserRollData {
    const userId: UInt64
    var rollEntries: seq<UserRollEntry>

    constructor (userId: UInt64)
      ensures this.userId == userId && rollEntries == []
    {
      this.userId := userId;
      rollEntries := [];
    }
  }

  /** `FirstOrDefault(d => d.UserId == userId)`, as the position of the first match. */
  function FirstIndex(ds: seq<UserRollData>, userId: UInt64): (r: Option<nat>)
    ensures r.Some? ==>
      && r.value < |ds| && ds[r.value].userId == userId
      && forall j :: 0 <= j < r.value ==> ds[j].userId != userId
    ensures r.None? ==> forall j :: 0 <= j < |ds| ==> ds[j].userId != userId
  {
    if |ds| == 0 then None
    else if ds[0].userId == userId then Some(0)
    else
      match FirstIndex(ds[1..], userId)
      case None => None
      case Some(k) => Some(k + 1)
  }

  /** Adding a record for another user does not move the first match. */
  lemma {:induction false} FirstIndexAppend(ds: seq<UserRollData>, d: UserRollData, userId: UInt64)
    requires d.userId != userId
    ensures FirstIndex(ds + [d], userId) == FirstIndex(ds, userId)
  {
    if |ds| > 0 && ds[0].userId != userId {
      assert (ds + [d])[1..] == ds[1..] + [d];
      FirstIndexAppend(ds[1..], d, userId);
    }
  }

  /** The in-memory state of the older bot: `_userRollData`. */
  class LegacyBot {
    var userRollData: seq<UserRollData>

    /** At most one record per user, which `SaveRollResult` maintains. */
    ghost predicate Valid()
      reads this
    {
      forall i, j :: 0 <= i < j < |userRollData| ==> userRollData[i].userId != userRollData[j].userId
    }

    constructor ()
      ensures Valid() && userRollData == []
    {
      userRollData := [];
    }

    /** Whether the store has a record for `userId`. */
    predicate HasUser(userId: UInt64)
      reads this
    {
      FirstIndex(userRollData, userId).Some?
    }

    /** `GetUserRolls`: the entries of the user's record, or none for an unknown user. */
    function GetUserRolls(userId: UInt64): (r: seq<UserRollEntry>)
      reads this, userRollData
      ensures !HasUser(userId) ==> r == []
      ensures Valid() ==> forall i :: 0 <= i < |userRollData| && userRollData[i].userId == userId ==>
        r == userRollData[i].rollEntries
    {
      match FirstIndex(userRollData, userId)
      case None => []
      case Some(i) => userRollData[i].rollEntries
    }

    /**
     * `SaveRollResult`: append one entry to the user's record, making the
     * record first when there is none. The entry carries the rarity, image,
     * name and element passed in, but its stats come from `second`, a roll
     * drawn inside this method and never shown to the user.
     */
    method SaveRollResult(userId: UInt64, rarity: Int32, imageUrl: string, rollName: string,
                          element: Element, second: Models.RollDraws)
      requires Valid() && 0 <= second.element < 3
      modifies this, userRollData
      ensures Valid()
      ensures GetUserRolls(userId) == old(GetUserRolls(userId)) +
        [UserRollEntry(rarity, imageUrl, rollName, element,
                       GetRollResult(second).attack, GetRollResult(second).defense, GetRollResult(second).speed)]
      ensures forall u :: u != userId ==> GetUserRolls(u) == old(GetUserRolls(u))
      ensures HasUser(userId)
      ensures forall u :: u != userId ==> HasUser(u) == old(HasUser(u))
      ensures |userRollData| == old(|userRollData|) + (if old(HasUser(userId)) then 0 else 1)
      ensures old(userRollData) <= userRollData
      ensures forall i :: |old(userRollData)| <= i < |userRollData| ==> fresh(userRollData[i])
    {
      var index := FirstIndex(userRollData, userId);
      var data: UserRollData;
      if index.None? {
        data := new UserRollData(userId);
        forall u | u != userId
          ensures FirstIndex(userRollData + [data], u) == FirstIndex(userRollData, u)
        {
          FirstIndexAppend(userRollData, data, u);
        }
        assert (userRollData + [data])[|userRollData|] == data;
        assert FirstIndex(userRollData + [data], userId) == Some(|userRollData|);
        userRollData := userRollData + [data];
      } else {
        data := userRollData[index.value];
      }
      var rollResult := GetRollResult(second);
      data.rollEntries := data.rollEntries + [UserRollEntry(
        rarity, imageUrl, rollName, element, rollResult.attack, rollResult.defense, rollResult.speed)];
    }
  }

  /** The draws and fetched values one message may consume. */
  datatype LegacyInputs = LegacyInputs(
    first: Models.RollDraws,
    elementDraw: int,
    image: Utility.Fetch<Option<string>>,
    words: Utility.Fetch<(string, string)>,
    second: Models.RollDraws)

  /** What the older bot sends back. */
  datatype Reply =
    | Greeting(username: string)
    | RollGet(result: WaifuRollResult, emoji: string, rollName: string, imageUrl: string)
    | NoImage
    | RollHistory(entries: seq<UserRollEntry>)
    | NoHistory
    | Faulted

  /** The entry the older bot stores for a roll: shown rarity, second roll's stats. */
  function StoredEntry(inputs: LegacyInputs): (e: UserRollEntry)
    requires 0 <= inputs.first.element < 3 && 0 <= inputs.second.element < 3
    requires inputs.image.Response?
    ensures e.rarity == GetRollResult(inputs.first).starRating
    ensures e.attack == inputs.second.attack && e.defense == inputs.second.defense
    ensures e.speed == inputs.second.speed
  {
    var second := GetRollResult(inputs.second);
    UserRollEntry(GetRollResult(inputs.first).starRating, Utility.GetChar(inputs.image.body),
                  Utility.GetRandomRollName(inputs.words), GetRandomElement(inputs.elementDraw),
                  second.attack, second.defense, second.speed)
  }

  /** `MessageReceivedAsync` of the older bot (no guild check, no munny). */
  method MessageReceived(bot: LegacyBot, msg: Bot.Message, inputs: LegacyInputs)
    returns (replies: seq<Reply>)
    requires bot.Valid()
    requires 0 <= inputs.first.element < 3 && 0 <= inputs.second.element < 3
    modifies bot, bot.userRollData
    ensures bot.Valid()
    ensures old(bot.userRollData) <= bot.userRollData
    ensures forall i :: |old(bot.userRollData)| <= i < |bot.userRollData| ==> fresh(bot.userRollData[i])
    ensures msg.authorIsBot ==> replies == []
    ensures !(!msg.authorIsBot && Bot.StartsWith(msg.content, ">roll") && inputs.image.Response?) ==>
      forall u :: bot.GetUserRolls(u) == old(bot.GetUserRolls(u))
    ensures !msg.authorIsBot && Bot.StartsWith(msg.content, ">hello") ==> replies == [Greeting(msg.username)]
    ensures !msg.authorIsBot && Bot.StartsWith(msg.content, ">roll") ==>
      if inputs.image.RequestFailed? then replies == [Faulted]
      else
        var imageUrl := Utility.GetChar(inputs.image.body);
        && bot.GetUserRolls(msg.authorId) == old(bot.GetUserRolls(msg.authorId)) + [StoredEntry(inputs)]
        && (forall u :: u != msg.authorId ==> bot.GetUserRolls(u) == old(bot.GetUserRolls(u)))
        && replies == [if imageUrl == "" then NoImage
                       else RollGet(GetRollResult(inputs.first),
                                    Utility.GetElementEmoji(GetRandomElement(inputs.elementDraw)),
                                    Utility.GetRandomRollName(inputs.words), imageUrl)]
    ensures !msg.authorIsBot && Bot.StartsWith(msg.content, ">myrolls") ==>
      var rolls := old(bot.GetUserRolls(msg.authorId));
      replies == [if |rolls| > 0 then RollHistory(rolls) else NoHistory]
    ensures Bot.CommandOf(msg.content) !in {Bot.Hello, Bot.Roll, Bot.MyRolls} ==> replies == []
  {
    replies := [];
    if msg.authorIsBot {
      return;
    }
    Bot.CommandPrefixesExclusive(msg.content);

    if Bot.StartsWith(msg.content, ">hello") {
      replies := replies + [Greeting(msg.username)];
      return;
    }
    if Bot.StartsWith(msg.content, ">roll") {
      var result := GetRollResult(inputs.first);
      if inputs.image.RequestFailed? {
        replies := replies + [Faulted];
        return;
      }
      var imageUrl := Utility.GetChar(inputs.image.body);
      var rollName := Utility.GetRandomRollName(inputs.words);
      var element := GetRandomElement(inputs.elementDraw);
      bot.SaveRollResult(msg.authorId, result.starRating, imageUrl, rollName, element, inputs.second);
      var elementEmoji := Utility.GetElementEmoji(element);
      if imageUrl == "" {
        replies := replies + [NoImage];
      } else {
        replies := replies + [RollGet(result, elementEmoji, rollName, imageUrl)];
      }
      return;
    }
    if Bot.StartsWith(msg.content, ">myrolls") {
      var rolls := bot.GetUserRolls(msg.authorId);
      if |rolls| > 0 {
        replies := replies + [RollHistory(rolls)];
      } else {
        replies := replies + [NoHistory];
      }
    }
  }
}
