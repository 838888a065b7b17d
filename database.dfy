/**
 * The storage layer (Database.cs) as in-memory state: the `UserRolls` table
 * with its AUTOINCREMENT counter, the ordinal decode of its rows, and the
 * balance ledger the handler calls.
 */
module Database {
  import opened Wrappers
  import opened Models

  /** A value read from a SQLite column. */
  datatype SqlValue = Integer(n: int) | Text(s: string)

  /**
   * One row of `UserRolls`: the columns of the schema in their declared order
   * (ordinals 0 to 8), then the owner id the nine-argument insert stores
   * (ordinal 9).
   */
  datatype Row = Row(
    id: int,
    userId: string,
    rarity: Int32,
    imageUrl: string,
    rollName: string,
    element: string,
    attack: Int32,
    defense: Int32,
    speed: Int32,
    ownerId: string)

  const ColumnCount := 10

  /** The value at a column ordinal, following the table's declaration order. */
  function Column(row: Row, ordinal: nat): (v: Option<SqlValue>)
    ensures v.Some? <==> ordinal < ColumnCount
  {
    match ordinal
    case 0 => Some(Integer(row.id))
    case 1 => Some(Text(row.userId))
    case 2 => Some(Integer(row.rarity))
    case 3 => Some(Text(row.imageUrl))
    case 4 => Some(Text(row.rollName))
    case 5 => Some(Text(row.element))
    case 6 => Some(Integer(row.attack))
    case 7 => Some(Integer(row.defense))
    case 8 => Some(Integer(row.speed))
    case 9 => Some(Text(row.ownerId))
    case _ => None
  }

  /** `reader.GetInt32(ordinal)`: fails on a text column or a value outside `int`. */
  function GetInt32(row: Row, ordinal: nat): Option<Int32> {
    match Column(row, ordinal)
    case Some(Integer(n)) => if -0x8000_0000 <= n < 0x8000_0000 then Some(n) else None
    case _ => None
  }

  /** `reader.GetString(ordinal)`. */
  function GetString(row: Row, ordinal: nat): Option<string> {
    match Column(row, ordinal)
    case Some(Text(s)) => Some(s)
    case _ => None
  }

  /**
   * The entry built from one row by ordinals 2 to 8; `Enum.Parse` fails on a
   * stored element that is not a member's name. Id and OwnerId are not set by
   * the decode and keep their defaults (0 and null).
   */
  function DecodeRow(row: Row): (r: Option<UserRollEntry>)
    ensures r.Some? <==> ParseElement(row.element).Some?
    ensures r.Some? ==> r.value == UserRollEntry(0, row.rarity, row.imageUrl, row.rollName,
                                                 ParseElement(row.element).value,
                                                 row.attack, row.defense, row.speed, None)
  {
    var rarity := GetInt32(row, 2);
    var imageUrl := GetString(row, 3);
    var rollName := GetString(row, 4);
    var name := GetString(row, 5);
    var element := if name.Some? then ParseElement(name.value) else None;
    var attack := GetInt32(row, 6);
    var defense := GetInt32(row, 7);
    var speed := GetInt32(row, 8);
    if rarity.Some? && imageUrl.Some? && rollName.Some? && element.Some?
       && attack.Some? && defense.Some? && speed.Some?
    then Some(UserRollEntry(0, rarity.value, imageUrl.value, rollName.value, element.value,
                            attack.value, defense.value, speed.value, None))
    else None
  }

  /** The rows `WHERE UserId = @UserId`, in table order. */
  function Select(rows: seq<Row>, userId: string): (r: seq<Row>)
    ensures |r| <= |rows|
  {
    if rows == [] then []
    else
      var last := rows[|rows| - 1];
      Select(rows[..|rows| - 1], userId) + (if last.userId == userId then [last] else [])
  }

  /** Decodes every row, failing when any row fails. */
  function DecodeAll(rows: seq<Row>): (r: Option<seq<UserRollEntry>>)
    ensures r.Some? ==> |r.value| == |rows|
  {
    if rows == [] then Some([])
    else
      var init := DecodeAll(rows[..|rows| - 1]);
      var last := DecodeRow(rows[|rows| - 1]);
      if init.Some? && last.Some? then Some(init.value + [last.value]) else None
  }

  /** The selection holds exactly the table's rows for that user. */
  lemma {:induction false} SelectExactly(rows: seq<Row>, userId: string)
    ensures forall row :: row in Select(rows, userId) <==> row in rows && row.userId == userId
  {
    if rows != [] {
      var init := rows[..|rows| - 1];
      SelectExactly(init, userId);
      assert rows == init + [rows[|rows| - 1]];
    }
  }

  /** Decoding fails exactly when some row's element does not parse. */
  lemma {:induction false} DecodeAllSucceeds(rows: seq<Row>)
    ensures DecodeAll(rows).Some? <==> forall i :: 0 <= i < |rows| ==> ParseElement(rows[i].element).Some?
  {
    if rows != [] {
      var init := rows[..|rows| - 1];
      DecodeAllSucceeds(init);
      assert forall i :: 0 <= i < |init| ==> init[i] == rows[i];
    }
  }

  /** A successful decode holds, position by position, the decoded rows. */
  lemma {:induction false} DecodeAllElementwise(rows: seq<Row>, i: nat)
    requires DecodeAll(rows).Some? && i < |rows|
    ensures DecodeRow(rows[i]).Some? && DecodeAll(rows).value[i] == DecodeRow(rows[i]).value
  {
    var init := rows[..|rows| - 1];
    if i < |init| {
      DecodeAllElementwise(init, i);
      assert init[i] == rows[i];
    }
  }

  /** The decode sets neither `Id` nor `OwnerId`: every listed entry has id 0 and no owner. */
  lemma ListedEntriesLackIdAndOwner(rows: seq<Row>, i: nat)
    requires DecodeAll(rows).Some? && i < |DecodeAll(rows).value|
    ensures DecodeAll(rows).value[i].id == 0 && DecodeAll(rows).value[i].ownerId.None?
  {
    DecodeAllElementwise(rows, i);
  }

  /** Ids increase in table order, so no two rows share an id. */
  ghost predicate IdsIncreasing(rows: seq<Row>) {
    forall i, j :: 0 <= i < j < |rows| ==> rows[i].id < rows[j].id
  }

  lemma {:induction false} SelectAppend(rows: seq<Row>, row: Row, userId: string)
    ensures Select(rows + [row], userId) == Select(rows, userId) + (if row.userId == userId then [row] else [])
  {
    assert (rows + [row])[..|rows|] == rows;
  }

  /**
   * Inserting a row for a user and then listing that user's rolls gives the
   * earlier list followed by the inserted values, the element decoded back.
   */
  lemma InsertThenList(rows: seq<Row>, row: Row, element: Element)
    requires row.element == ElementName(element)
    requires DecodeAll(Select(rows, row.userId)).Some?
    ensures DecodeAll(Select(rows + [row], row.userId))
         == Some(DecodeAll(Select(rows, row.userId)).value
                 + [UserRollEntry(0, row.rarity, row.imageUrl, row.rollName, element,
                                  row.attack, row.defense, row.speed, None)])
  {
    SelectAppend(rows, row, row.userId);
    ElementNameRoundTrip(element);
    var selected := Select(rows, row.userId);
    assert (selected + [row])[..|selected|] == selected;
  }

  /** An insert for one user leaves every other user's listing as it was. */
  lemma InsertOtherUser(rows: seq<Row>, row: Row, userId: string)
    requires row.userId != userId
    ensures Select(rows + [row], userId) == Select(rows, userId)
  {
    SelectAppend(rows, row, userId);
  }

  /** When every stored element is a member's name, listing never fails. */
  lemma WellFormedDecodes(rows: seq<Row>, userId: string)
    requires forall i :: 0 <= i < |rows| ==> ParseElement(rows[i].element).Some?
    ensures DecodeAll(Select(rows, userId)).Some?
    ensures |DecodeAll(Select(rows, userId)).value| == |Select(rows, userId)|
  {
    var selected := Select(rows, userId);
    SelectExactly(rows, userId);
    forall i | 0 <= i < |selected|
      ensures ParseElement(selected[i].element).Some?
    {
      assert selected[i] in rows;
    }
    DecodeAllSucceeds(selected);
  }

  /** The `UserRolls` table and its `sqlite_sequence` counter (the last id handed out). */
  class RollTable {
    var rows: seq<Row>
    var lastId: int

    ghost predicate Valid()
      reads this
    {
      && 0 <= lastId
      && (forall i :: 0 <= i < |rows| ==> 1 <= rows[i].id <= lastId)
      && IdsIncreasing(rows)
    }

    /** Every stored element string decodes. */
    ghost predicate WellFormed()
      reads this
    {
      forall i :: 0 <= i < |rows| ==> ParseElement(rows[i].element).Some?
    }

    /** A freshly created table. */
    constructor ()
      ensures Valid() && WellFormed()
      ensures rows == [] && lastId == 0
    {
      rows := [];
      lastId := 0;
    }

    /**
     * `INSERT INTO UserRolls ...`: appends one row holding each argument in its
     * column, under a fresh id greater than every id in the table.
     */
    method InsertUserRoll(userId: string, rarity: Int32, imageUrl: string, rollName: string,
                          element: string, attack: Int32, defense: Int32, speed: Int32,
                          ownerId: string)
      requires Valid()
      modifies this
      ensures Valid()
      ensures lastId == old(lastId) + 1
      ensures rows == old(rows) + [Row(lastId, userId, rarity, imageUrl, rollName, element,
                                       attack, defense, speed, ownerId)]
      ensures forall i :: 0 <= i < |old(rows)| ==> old(rows)[i].id < lastId
      ensures old(WellFormed()) && ParseElement(element).Some? ==> WellFormed()
    {
      lastId := lastId + 1;
      rows := rows + [Row(lastId, userId, rarity, imageUrl, rollName, element,
                          attack, defense, speed, ownerId)];
    }

    /**
     * `SELECT * FROM UserRolls WHERE UserId = @UserId`, each row decoded. The
     * query has no ORDER BY, so only the multiset of entries is promised.
     * Fails when `Enum.Parse` throws on a row.
     */
    method GetUserRolls(userId: string) returns (rolls: Option<seq<UserRollEntry>>)
      ensures rolls.Some? == DecodeAll(Select(rows, userId)).Some?
      ensures rolls.Some? ==> multiset(rolls.value) == multiset(DecodeAll(Select(rows, userId)).value)
    {
      var entries: seq<UserRollEntry> := [];
      var i := 0;
      while i < |rows|
        invariant 0 <= i <= |rows|
        invariant DecodeAll(Select(rows[..i], userId)) == Some(entries)
      {
        var row := rows[i];
        assert rows[..i + 1] == rows[..i] + [row];
        SelectAppend(rows[..i], row, userId);
        if row.userId == userId {
          var entry := DecodeRow(row);
          DecodeAllAppend(Select(rows[..i], userId), row);
          if entry.None? {
            FailurePersists(rows, i + 1, userId);
            return None;
          }
          entries := entries + [entry.value];
          assert Select(rows[..i + 1], userId) == Select(rows[..i], userId) + [row];
        } else {
          assert Select(rows[..i + 1], userId) == Select(rows[..i], userId);
        }
        i := i + 1;
      }
      assert rows[..i] == rows;
      rolls := Some(entries);
    }
  }

  lemma DecodeAllAppend(rows: seq<Row>, row: Row)
    ensures DecodeAll(rows + [row])
         == if DecodeAll(rows).Some? && DecodeRow(row).Some?
            then Some(DecodeAll(rows).value + [DecodeRow(row).value])
            else None
  {
    assert (rows + [row])[..|rows|] == rows;
  }

  /** Once a prefix of the selected rows fails to decode, the whole selection does. */
  lemma {:induction false} FailurePersists(rows: seq<Row>, k: nat, userId: string)
    requires k <= |rows|
    requires DecodeAll(Select(rows[..k], userId)).None?
    ensures DecodeAll(Select(rows, userId)).None?
    decreases |rows| - k
  {
    if k < |rows| {
      assert rows[..k + 1] == rows[..k] + [rows[k]];
      SelectAppend(rows[..k], rows[k], userId);
      if rows[k].userId == userId {
        DecodeAllAppend(Select(rows[..k], userId), rows[k]);
      } else {
        assert Select(rows[..k + 1], userId) == Select(rows[..k], userId);
      }
      FailurePersists(rows, k + 1, userId);
    } else {
      assert rows[..k] == rows;
    }
  }

  /** A balance read from the ledger: 0 for a user without a record. */
  function BalanceOf(balances: map<string, int>, userId: string): (b: int)
    ensures userId !in balances ==> b == 0
  {
    if userId in balances then balances[userId] else 0
  }

  /**
   * The balance ledger. Its operations are not part of the shown Database.cs;
   * their contracts here are assumptions: a missing user reads as 0, and a
   * deduction is all-or-nothing.
   */
  class Ledger {
    var balances: map<string, int>

    /** No balance is negative. */
    ghost predicate Valid()
      reads this
    {
      forall u :: u in balances ==> balances[u] >= 0
    }

    constructor ()
      ensures Valid() && balances == map[]
    {
      balances := map[];
    }

    /** `GetUserBalance`: the stored balance, 0 for a user without a record. */
    function GetUserBalance(userId: string): (b: int)
      reads this
      ensures Valid() ==> b >= 0
      ensures userId !in balances ==> b == 0
    {
      BalanceOf(balances, userId)
    }

    /** `SetUserBalance`: an unconditional overwrite of one user's balance. */
    method SetUserBalance(userId: string, value: int)
      modifies this
      ensures balances == old(balances)[userId := value]
      ensures old(Valid()) && value >= 0 ==> Valid()
    {
      balances := balances[userId := value];
    }

    /**
     * `DeductUserBalance`: succeeds exactly when the store completes the update
     * (`available`) and the balance covers the amount; on success the balance
     * drops by exactly the amount, on failure nothing changes.
     */
    method DeductUserBalance(userId: string, amount: int, available: bool) returns (ok: bool)
      modifies this
      ensures ok == (available && old(GetUserBalance(userId)) >= amount)
      ensures ok ==> balances == old(balances)[userId := old(GetUserBalance(userId)) - amount]
      ensures !ok ==> balances == old(balances)
      ensures old(Valid()) ==> Valid()
    {
      var current := GetUserBalance(userId);
      ok := available && current >= amount;
      if ok {
        balances := balances[userId := current - amount];
      }
    }
  }
}
