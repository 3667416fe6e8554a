/** The record table behind the `GetByID` RPC (`userData` in the server). */
module UserStore {
  import opened Wrappers

  /** Go's `uint32`, the type of user ids. */
  newtype Uint32 = x: int | 0 <= x < 0x1_0000_0000

  /** The reply message: the user's name and the id that was asked for. */
  datatype User = User(name: string, id: Uint32)

  /** Ids and the display names stored for them. */
  type Table = map<Uint32, string>

  /** The error text returned for an id that is not in the table. */
  const NotFound: string := "user not found"

  /** The table a freshly built store holds. */
  const Seed: Table := map[1 := "Nicolas"]

  /** Looking up one id: its stored name with the id echoed back, or the
      not-found error exactly when the id has no entry. */
  function Lookup(table: Table, id: Uint32): (r: Result<User, string>)
    ensures r.Ok? <==> id in table
    ensures r.Ok? ==> r.value.name == table[id] && r.value.id == id
    ensures r.Err? ==> r.error == NotFound
  {
    if id in table then Ok(User(table[id], id)) else Err(NotFound)
  }

  /** The seeded store answers id 1 with "Nicolas" and every other id with
      the not-found error. */
  lemma SeedLookups(id: Uint32)
    ensures Lookup(Seed, id) == if id == 1 then Ok(User("Nicolas", 1)) else Err(NotFound)
  {
  }

  /** `userData`: its `users` field is a Go map, which may be nil (`None`). */
  class UserData {
    var users: Option<Table>

    /** The entries the store answers from; a nil map has none. */
    function Entries(): Table
      reads this
    {
      users.GetOr(map[])
    }

    /** `new(userData)`: the zero value, whose map is nil. */
    constructor Zero()
      ensures users == None && Entries() == map[]
    {
      users := None;
    }

    /** `NewUserData`: allocates an empty map and stores 1 -> "Nicolas" in it,
        leaving exactly one entry. */
    static method NewUserData() returns (d: UserData)
      ensures fresh(d)
      ensures d.users == Some(Seed)
      ensures d.Entries().Keys == {1} && d.Entries()[1] == "Nicolas"
    {
      d := new UserData.Zero();
      d.users := Some(map[]);
      d.users := Some(d.users.value[1 := "Nicolas"]);
    }

    /** `GetByID`: replaces a nil map by an empty one, then answers from the
        entries, which it never adds to or changes. */
    method GetByID(id: Uint32) returns (r: Result<User, string>)
      modifies this
      ensures users == Some(old(Entries()))
      ensures Entries() == old(Entries())
      ensures r == Lookup(Entries(), id)
    {
      if users.None? {
        users := Some(map[]);
      }
      if id in users.value {
        r := Ok(User(users.value[id], id));
      } else {
        r := Err(NotFound);
      }
    }
  }

  /** A client of the store: a fresh store answers id 1 and refuses id 2,
      and asking twice gives the same answer. */
  method SeededStoreAnswers()
  {
    var d := UserData.NewUserData();
    var a := d.GetByID(1);
    assert a == Ok(User("Nicolas", 1));
    var b := d.GetByID(2);
    assert b == Err(NotFound);
    var c := d.GetByID(1);
    assert c == a;
  }
}
