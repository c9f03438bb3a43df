/**
 * The local profile store of src/services/db.py: a `user_profile` table
 * whose primary key is constrained to 1, so it holds at most one row.
 * The model keeps that row, if any, as an in-memory record.
 */
module ProfileStore {
  import opened Wrappers

  datatype UserRow = UserRow(name: string, phone: string, spentRub: int, bonus: int)

  /** The row `init_db` inserts, and what `get_user` reports when there is none. */
  const EmptyRow: UserRow := UserRow("", "", 0, 0)

  datatype Column = NameColumn | PhoneColumn

  /** One `column = ?` item of an UPDATE's SET list, with its bound parameter. */
  datatype Assignment = Assignment(column: Column, value: string)

  /** Executing `UPDATE user_profile SET <sets> WHERE id = 1` on the row. */
  function ApplyAssignments(row: UserRow, sets: seq<Assignment>): UserRow
    decreases |sets|
  {
    if sets == [] then row
    else
      var a := sets[0];
      var next := match a.column
        case NameColumn => row.(name := a.value)
        case PhoneColumn => row.(phone := a.value);
      ApplyAssignments(next, sets[1..])
  }

  /** The row after `update_user(name, phone)`: supplied fields replaced, all else kept. */
  function WithContact(row: UserRow, name: Option<string>, phone: Option<string>): UserRow {
    row.(name := name.GetOr(row.name), phone := phone.GetOr(row.phone))
  }

  function WithSpent(row: UserRow, amount: int): UserRow {
    row.(spentRub := row.spentRub + amount)
  }

  function WithBonus(row: UserRow, points: int): UserRow {
    row.(bonus := row.bonus + points)
  }

  /** A partial update writes only the fields it is given and never the counters. */
  lemma WithContactPartial(row: UserRow, name: Option<string>, phone: Option<string>)
    ensures var r := WithContact(row, name, phone);
            r.spentRub == row.spentRub && r.bonus == row.bonus &&
            (name.Some? ==> r.name == name.value) && (name.None? ==> r.name == row.name) &&
            (phone.Some? ==> r.phone == phone.value) && (phone.None? ==> r.phone == row.phone)
    ensures WithContact(row, None, None) == row
  {
  }

  /** Increments accumulate: adding `a` then `b` adds `a + b`. */
  lemma SpentAccumulates(row: UserRow, a: int, b: int)
    ensures WithSpent(WithSpent(row, a), b) == WithSpent(row, a + b)
    ensures WithBonus(WithBonus(row, a), b) == WithBonus(row, a + b)
  {
  }

  /** Spend and bonus are independent counters, and neither touches the contact fields. */
  lemma CountersIndependent(row: UserRow, amount: int, points: int, name: Option<string>, phone: Option<string>)
    ensures WithBonus(WithSpent(row, amount), points) == WithSpent(WithBonus(row, points), amount)
    ensures WithSpent(row, amount).bonus == row.bonus
    ensures WithBonus(row, points).spentRub == row.spentRub
    ensures WithContact(WithSpent(row, amount), name, phone) == WithSpent(WithContact(row, name, phone), amount)
  {
  }

  /** The single-row table. */
  class Database {
    /** The row with id 1, if the table holds one. */
    var row: Option<UserRow>

    /** A database file whose table is empty. */
    constructor ()
      ensures row == None
    {
      row := None;
    }

    /** `init_db`: insert the empty row when the table has none; an existing row is kept. */
    method InitDb()
      modifies this
      ensures row == if old(row).None? then Some(EmptyRow) else old(row)
    {
      if row.None? {
        row := Some(EmptyRow);
      }
    }

    /** `get_user`: the stored row, or the empty defaults when there is none. */
    method GetUser() returns (user: UserRow)
      ensures row.Some? ==> user == row.value
      ensures row.None? ==> user == EmptyRow
    {
      match row
      case Some(r) => user := r;
      case None => user := EmptyRow;
    }

    /**
     * `update_user`: nothing happens when neither field is supplied;
     * otherwise the SET list names exactly the supplied fields. Without a
     * row the UPDATE matches nothing.
     */
    method UpdateUser(name: Option<string>, phone: Option<string>)
      modifies this
      ensures row == if old(row).Some? then Some(WithContact(old(row).value, name, phone)) else None
    {
      if name.None? && phone.None? {
        return;
      }
      var sets: seq<Assignment> := [];
      if name.Some? {
        sets := sets + [Assignment(NameColumn, name.value)];
      }
      if phone.Some? {
        sets := sets + [Assignment(PhoneColumn, phone.value)];
      }
      if row.Some? {
        var r := row.value;
        if name.Some? && phone.Some? {
          assert sets[1..] == [Assignment(PhoneColumn, phone.value)];
          assert ApplyAssignments(r, sets) == ApplyAssignments(r.(name := name.value), sets[1..]);
          assert ApplyAssignments(r.(name := name.value), sets[1..])
              == ApplyAssignments(r.(name := name.value, phone := phone.value), []);
        } else if name.Some? {
          assert ApplyAssignments(r, sets) == ApplyAssignments(r.(name := name.value), []);
        } else {
          assert ApplyAssignments(r, sets) == ApplyAssignments(r.(phone := phone.value), []);
        }
        row := Some(ApplyAssignments(row.value, sets));
      }
    }

    /** `add_spent`: `spent_rub = spent_rub + amount` on the row, if there is one. */
    method AddSpent(amount: int)
      modifies this
      ensures row == if old(row).Some? then Some(WithSpent(old(row).value, amount)) else None
    {
      if row.Some? {
        row := Some(WithSpent(row.value, amount));
      }
    }

    /** `add_bonus`: `bonus = bonus + points` on the row, if there is one; negative points are not refused. */
    method AddBonus(points: int)
      modifies this
      ensures row == if old(row).Some? then Some(WithBonus(old(row).value, points)) else None
    {
      if row.Some? {
        row := Some(WithBonus(row.value, points));
      }
    }
  }

  /** `init_db` followed by `add_spent(100)` and `add_spent(50)` leaves 150 spent and no bonus. */
  method SpendTwice(db: Database)
    modifies db
    ensures db.row.Some? && db.row.value.spentRub == old(db.row).GetOr(EmptyRow).spentRub + 150
    ensures db.row.value.bonus == old(db.row).GetOr(EmptyRow).bonus
  {
    db.InitDb();
    db.AddSpent(100);
    db.AddSpent(50);
  }
}
