/**
 * The user table behind `prisma.user`, as the core uses it: `findUnique` by email or
 * by id, `create`, `findMany`. Rows are kept in a map keyed by their unique email.
 */
module Prisma {
  import opened Wrappers
  import opened Entities

  predicate KeyedByEmail(users: map<string, User>)
  {
    forall e :: e in users ==> users[e].email == e
  }

  predicate UniqueIds(users: map<string, User>)
  {
    forall e1, e2 :: e1 in users && e2 in users && users[e1].id == users[e2].id ==> e1 == e2
  }

  /** The table's two uniqueness constraints. */
  predicate WellFormed(users: map<string, User>)
  {
    KeyedByEmail(users) && UniqueIds(users)
  }

  predicate IdTaken(users: map<string, User>, id: string)
  {
    exists e :: e in users && users[e].id == id
  }

  /** `findUnique({where: {email}})`. */
  function FindByEmail(users: map<string, User>, email: string): (r: Option<User>)
    requires KeyedByEmail(users)
    ensures r.Some? <==> exists e :: e in users && users[e].email == email
    ensures r.Some? ==> r.value in users.Values && r.value.email == email
  {
    if email in users then Some(users[email]) else None
  }

  /** `findUnique({where: {id}})`. */
  function FindById(users: map<string, User>, id: string): (r: Option<User>)
    requires WellFormed(users)
    ensures r.Some? <==> IdTaken(users, id)
    ensures r.Some? ==> r.value.id == id && r.value.email in users && users[r.value.email] == r.value
  {
    if IdTaken(users, id) then
      var e :| e in users && users[e].id == id;
      Some(users[e])
    else
      None
  }

  /** The columns the database fills in itself on `create`. */
  datatype StoreFill = StoreFill(id: string, address: string, role: string)

  /** `create({data})` at time `now`: the new row, or the unique-constraint error. */
  function Created(users: map<string, User>, data: UserData, fill: StoreFill, now: int): (r: Result<User, Exception>)
    ensures r.Err? <==> data.email in users || IdTaken(users, fill.id)
    ensures r.Err? ==> r.error == UniqueConstraint
    ensures r.Ok? ==> r.value.email == data.email && r.value.name == data.name
    ensures r.Ok? ==> r.value.phone_number == data.phone_number && r.value.password == data.password
    ensures r.Ok? ==> r.value.id == fill.id && r.value.createdAt == now && r.value.updatedAt == now
  {
    if data.email in users || IdTaken(users, fill.id) then Err(UniqueConstraint)
    else Ok(User(fill.id, data.name, data.email, data.phone_number, fill.address,
                 data.password, fill.role, None, now, now))
  }

  /** Inserting a row that `Created` accepted keeps both uniqueness constraints. */
  lemma CreatedKeepsWellFormed(users: map<string, User>, data: UserData, fill: StoreFill, now: int)
    requires WellFormed(users)
    requires Created(users, data, fill, now).Ok?
    ensures WellFormed(users[data.email := Created(users, data, fill, now).value])
  {
  }

  /** Distinct rows are distinct users, so the table lists as many users as it has rows. */
  lemma {:induction false} ValuesMatchRows(users: map<string, User>)
    requires UniqueIds(users)
    ensures |users.Values| == |users|
    decreases |users|
  {
    if users != map[] {
      var e :| e in users;
      var u := users[e];
      var rest := users - {e};
      assert UniqueIds(rest);
      ValuesMatchRows(rest);
      assert u !in rest.Values by {
        forall e' | e' in rest ensures rest[e'] != u {
          assert users[e'] == rest[e'];
        }
      }
      assert users.Values == rest.Values + {u} by {
        forall v | v in users.Values ensures v in rest.Values + {u} {
          var k :| k in users && users[k] == v;
          if k != e { assert rest[k] == v; }
        }
      }
      assert rest.Keys == users.Keys - {e};
    }
  }

  class Store {
    var users: map<string, User>

    ghost predicate Valid()
      reads this
    {
      WellFormed(users)
    }

    constructor ()
      ensures Valid() && users == map[]
    {
      users := map[];
    }

    method FindUniqueByEmail(email: string) returns (r: Option<User>)
      requires Valid()
      ensures r == FindByEmail(users, email)
    {
      r := FindByEmail(users, email);
    }

    method FindUniqueById(id: string) returns (r: Option<User>)
      requires Valid()
      ensures r == FindById(users, id)
    {
      r := FindById(users, id);
    }

    method Create(data: UserData, fill: StoreFill, now: int) returns (r: Result<User, Exception>)
      requires Valid()
      modifies this
      ensures Valid()
      ensures r == Created(old(users), data, fill, now)
      ensures users == if r.Ok? then old(users)[data.email := r.value] else old(users)
    {
      r := Created(users, data, fill, now);
      if r.Ok? {
        CreatedKeepsWellFormed(users, data, fill, now);
        users := users[data.email := r.value];
      }
    }

    /** `findMany({})`: every row, none merged with another. */
    method FindMany() returns (r: set<User>)
      requires Valid()
      ensures forall u :: u in r <==> exists e :: e in users && users[e] == u
      ensures |r| == |users|
    {
      r := users.Values;
      ValuesMatchRows(users);
    }
  }
}
