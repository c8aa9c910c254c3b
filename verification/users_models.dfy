/** The user models: listing every user and looking one up by username. */
module UsersModels {
  import opened JsValues
  import opened Express
  import opened Store

  /** `SELECT * FROM users;` with nothing bound. */
  function AllUsersQuery(): (q: Query)
    ensures WellBound(q)
    ensures Render(q.template) == "SELECT * FROM users;"
    ensures q.params == []
  {
    Query([Sql("SELECT * FROM users;")], [])
  }

  /** `SELECT * FROM users WHERE username=$1` with the username bound as `$1`. */
  function UserByNameQuery(username: string): (q: Query)
    ensures WellBound(q)
    ensures Render(q.template) == "SELECT * FROM users WHERE username=$1"
    ensures q.params == [Str(username)]
  {
    Query([Sql("SELECT * FROM users WHERE username="), Slot(1)], [Str(username)])
  }

  /** The rejection for a username that matched no row. */
  function UserNotFound(username: string): (e: ErrorValue)
    ensures e.status == Int(404) && Truthy(e.message)
    ensures e.message == Str("no user with username of " + username + " found")
  {
    ErrorValue(Int(404), Str("no user with username of " + username + " found"), Undefined)
  }

  /** Resolves with the whole result of the constant listing query. */
  function GetAllUsersModel(db: Db): (r: Settled<seq<Row>>)
    ensures r == db(AllUsersQuery())
  {
    db(AllUsersQuery())
  }

  /** Resolves with the first matching row; no match rejects with a 404
      naming the username; a database error rejects unchanged. */
  function GetUserModel(username: string, db: Db): (r: Settled<Row>)
    ensures db(UserByNameQuery(username)).Rejected? ==> r == Rejected(db(UserByNameQuery(username)).reason)
    ensures db(UserByNameQuery(username)) == Resolved([]) ==> r == Rejected(UserNotFound(username))
    ensures r.Resolved? <==> db(UserByNameQuery(username)).Resolved? && |db(UserByNameQuery(username)).value| > 0
    ensures r.Resolved? ==> r.value == db(UserByNameQuery(username)).value[0]
  {
    match db(UserByNameQuery(username))
    case Rejected(e) => Rejected(e)
    case Resolved(rows) =>
      if |rows| == 0 then Rejected(UserNotFound(username))
      else Resolved(rows[0])
  }
}
