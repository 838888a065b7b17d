/**
 * The entities of the gacha core (Models.cs): the element enum with the name
 * codec the database relies on, the roll result, the stored roll entry and
 * the per-user record of entries.
 */
module Models {
  import opened Wrappers

  /** A C# `int`. */
  type Int32 = x: int | -0x8000_0000 <= x < 0x8000_0000

  /** A C# `ulong`, the type of the chat platform's user and guild ids. */
  type UInt64 = x: int | 0 <= x < 0x1_0000_0000_0000_0000

  /** The three elements a roll can have, declared in this order. */
  datatype Element = Water | Fire | Grass

  /** The enum's underlying value: Water = 0, Fire = 1, Grass = 2. */
  function Ordinal(e: Element): (n: nat)
    ensures n < 3
  {
    match e
    case Water => 0
    case Fire => 1
    case Grass => 2
  }

  /** The cast `(Element)n`; every value in [0, 3) names a declared member. */
  function ElementOf(n: int): (e: Element)
    requires 0 <= n < 3
    ensures Ordinal(e) == n
  {
    if n == 0 then Water else if n == 1 then Fire else Grass
  }

  lemma OrdinalRoundTrip(e: Element)
    ensures ElementOf(Ordinal(e)) == e
  {
  }

  /** `Element.ToString()`: the member's declared name. */
  function ElementName(e: Element): (s: string)
    ensures |s| >= 4
  {
    match e
    case Water => "Water"
    case Fire => "Fire"
    case Grass => "Grass"
  }

  /**
   * `Enum.Parse(typeof(Element), s)` on the strings the table holds: a
   * declared name decodes to its member, anything else fails.
   */
  function ParseElement(s: string): (r: Option<Element>)
    ensures r.Some? ==> ElementName(r.value) == s
  {
    if s == "Water" then Some(Water)
    else if s == "Fire" then Some(Fire)
    else if s == "Grass" then Some(Grass)
    else None
  }

  /** Writing an element by name and parsing it back gives the element. */
  lemma ElementNameRoundTrip(e: Element)
    ensures ParseElement(ElementName(e)) == Some(e)
  {
  }

  /** A string that is no member's name does not parse. */
  lemma ParseRejectsNonNames(s: string)
    ensures ParseElement(s).None? <==> forall e: Element :: ElementName(e) != s
  {
    if ParseElement(s).None? {
      forall e: Element
        ensures ElementName(e) != s
      {
        ElementNameRoundTrip(e);
      }
    }
  }

  /** Distinct members have distinct names. */
  lemma ElementNameInjective(a: Element, b: Element)
    ensures ElementName(a) == ElementName(b) ==> a == b
  {
  }

  /** What `GetRollResult` in Bot.cs returns. */
  datatype RollResult = RollResult(starRating: Int32, attack: Int32, defense: Int32, speed: Int32)

  /** A roll as the database layer hands it back; `ownerId` is a nullable string. */
  datatype UserRollEntry = UserRollEntry(
    id: Int32,
    rarity: Int32,
    imageUrl: string,
    rollName: string,
    element: Element,
    attack: Int32,
    defense: Int32,
    speed: Int32,
    ownerId: Option<string>)

  /** A user's record: the user id and the list of that user's entries. */
  class UserRollData {
    var userId: UInt64
    var rollEntries: seq<UserRollEntry>

    /** `new UserRollData { UserId = userId }`: the entry list starts empty. */
    constructor (userId: UInt64)
      ensures this.userId == userId && rollEntries == []
    {
      this.userId := userId;
      rollEntries := [];
    }
  }

  /**
   * The values a roll takes from `System.Random`, in the order they are drawn:
   * the rarity draw, the element draw, then attack, defense and speed.
   */
  datatype RollDraws = RollDraws(roll: Int32, element: Int32, attack: Int32, defense: Int32, speed: Int32)

  /** The ranges `Next(1, 101)` and `Next(0, 3)` produce (upper bounds exclusive). */
  predicate DrawsInRange(d: RollDraws) {
    && 1 <= d.roll <= 100
    && 0 <= d.element < 3
    && 1 <= d.attack <= 100
    && 1 <= d.defense <= 100
    && 1 <= d.speed <= 100
  }
}
