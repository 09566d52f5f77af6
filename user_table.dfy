/** The `User` table the login and registration routes read and write. */
module UserTable {
  import opened Common

  datatype User = User(id: int, name: string, email: string, password: string)

  /** The table's unique constraint on `email`. */
  predicate EmailsUnique(users: seq<User>)
  {
    forall i, j :: 0 <= i < j < |users| ==> users[i].email != users[j].email
  }

  /** `findUnique({ where: { email } })` */
  function FindByEmail(users: seq<User>, email: string): (r: Option<User>)
    ensures r.Some? ==> r.value in users && r.value.email == email
    ensures r.None? <==> forall u :: u in users ==> u.email != email
  {
    if users == [] then None
    else if users[0].email == email then Some(users[0])
    else FindByEmail(users[1..], email)
  }

  /** Under the unique constraint the lookup finds the one user with that
      email. */
  lemma {:induction false} FindByEmailUnique(users: seq<User>, u: User)
    requires EmailsUnique(users)
    requires u in users
    ensures FindByEmail(users, u.email) == Some(u)
  {
    if users[0] != u {
      assert users[0].email != u.email by {
        var j :| 0 <= j < |users| && users[j] == u;
        assert j != 0;
      }
      assert EmailsUnique(users[1..]) by {
        forall i, j | 0 <= i < j < |users[1..]| ensures users[1..][i].email != users[1..][j].email {
          assert users[1..][i] == users[i + 1] && users[1..][j] == users[j + 1];
        }
      }
      FindByEmailUnique(users[1..], u);
    }
  }
}
