// aya-backend/server/api/session.go: the session REST API. A request's query
// filter becomes a GORM query struct plus the list of columns it sets; the
// owner middleware decides, from the filter, the JWT claim and two database
// lookups, whether the request goes on and with which user and session; PUT
// may change only `is_on` and `resources`, and POST always creates a session
// that is off. Database lookups are inputs (functions from a key to a lookup
// result); the fields of `models.GORMSession` are the ones this file uses.

module SessionApi {
  import opened Common

  /** `SessionFilter`: every field optional (a nil pointer is `None`). */
  datatype SessionFilter = SessionFilter(id: Option<nat>, userId: Option<nat>, isOn: Option<bool>, resources: Option<string>)

  /** The columns of `models.GORMSession` this API reads and writes. */
  datatype Session = Session(id: nat, userId: nat, isOn: bool, resources: string)

  /** `models.GORMUser`. */
  datatype User = User(id: nat, username: string, email: string)

  const ZeroSession: Session := Session(0, 0, false, "")

  /** The filter columns in the order `extractSessionFilter` checks them. */
  const ColumnOrder: seq<string> := ["id", "user_id", "is_on", "resources"]

  /** Whether the filter sets the named column. */
  predicate Sets(filter: SessionFilter, column: string)
  {
    match column
    case "id" => filter.id.Some?
    case "user_id" => filter.userId.Some?
    case "is_on" => filter.isOn.Some?
    case "resources" => filter.resources.Some?
    case _ => false
  }

  /** The query struct: a set field's value, a zero value elsewhere. */
  function QueryOf(filter: SessionFilter): (q: Session)
    ensures q.id == (if filter.id.Some? then filter.id.value else 0)
    ensures q.userId == (if filter.userId.Some? then filter.userId.value else 0)
    ensures q.isOn == (filter.isOn.Some? && filter.isOn.value)
    ensures q.resources == (if filter.resources.Some? then filter.resources.value else "")
  {
    Session(if filter.id.Some? then filter.id.value else 0,
            if filter.userId.Some? then filter.userId.value else 0,
            filter.isOn.Some? && filter.isOn.value,
            if filter.resources.Some? then filter.resources.value else "")
  }

  /** The names of the set columns, in `ColumnOrder`. */
  function ColumnsOf(filter: SessionFilter): seq<string>
  {
    (if filter.id.Some? then ["id"] else []) +
    (if filter.userId.Some? then ["user_id"] else []) +
    (if filter.isOn.Some? then ["is_on"] else []) +
    (if filter.resources.Some? then ["resources"] else [])
  }

  /** Where a column sits in `ColumnOrder` (4 for any other name). */
  function Rank(column: string): nat
  {
    if column == "id" then 0 else if column == "user_id" then 1
    else if column == "is_on" then 2 else if column == "resources" then 3 else 4
  }

  /** The two columns the owner middleware looks for are listed exactly when set. */
  lemma ColumnsNameIdAndUser(filter: SessionFilter)
    ensures "id" in ColumnsOf(filter) <==> filter.id.Some?
    ensures "user_id" in ColumnsOf(filter) <==> filter.userId.Some?
  {
    ColumnsListSetColumns(filter);
  }

  /** The column list names exactly the set columns, each once, in the fixed order. */
  lemma ColumnsListSetColumns(filter: SessionFilter)
    ensures forall c :: c in ColumnsOf(filter) <==> c in ColumnOrder && Sets(filter, c)
    ensures forall i, j :: 0 <= i < j < |ColumnsOf(filter)| ==> Rank(ColumnsOf(filter)[i]) < Rank(ColumnsOf(filter)[j])
  {
  }

  /** `extractSessionFilter`: the query struct and its column list, built field by field. */
  method ExtractSessionFilter(filter: SessionFilter) returns (query: Session, args: seq<string>)
    ensures query == QueryOf(filter) && args == ColumnsOf(filter)
  {
    query := ZeroSession;
    args := [];
    if filter.id.Some? {
      query := query.(id := filter.id.value);
      args := args + ["id"];
    }
    if filter.userId.Some? {
      query := query.(userId := filter.userId.value);
      args := args + ["user_id"];
    }
    if filter.isOn.Some? {
      query := query.(isOn := filter.isOn.value);
      args := args + ["is_on"];
    }
    if filter.resources.Some? {
      query := query.(resources := filter.resources.value);
      args := args + ["resources"];
    }
  }

  // ----- authSessionOwnerMiddleware -----

  /** A `db.First` lookup: the record, no such record, or another database error. */
  datatype Lookup<T> = Found(record: T) | RecordNotFound | DbError

  /** The JWT claims as far as the middleware reads them: the "email" claim, `None` when it
      is missing or not a string. */
  datatype Claim = Claim(email: Option<string>)

  const StatusBadRequest: int := 400
  const StatusForbidden: int := 403
  const StatusInternalServerError: int := 500

  /** What the middleware does with a request: hand it on untouched (OPTIONS), answer it
      with a status, hand it on with the user and perhaps the session attached, or panic
      on the failed type assertion of the email claim. */
  datatype Decision =
    | PassThrough
    | Reject(status: int, message: string)
    | Forward(user: User, session: Option<Session>)
    | Panic

  /** The middleware's decision chain. `filter` and `claim` are `None` when the request
      context lacks them; `findUser` and `findSession` are `db.First` by primary key. */
  function OwnerMiddleware(httpMethod: string, filter: Option<SessionFilter>, claim: Option<Claim>,
                           findUser: nat -> Lookup<User>, findSession: nat -> Lookup<Session>): (d: Decision)
    ensures httpMethod == "OPTIONS" <==> d == PassThrough
    ensures httpMethod != "OPTIONS" && (filter.None? || claim.None?) ==> d.Reject? && d.status == StatusBadRequest
    ensures httpMethod != "OPTIONS" && filter.Some? && claim.Some? && filter.value.userId.None? ==>
              d == Reject(StatusForbidden, "Query filter does not contains required fields")
    ensures (httpMethod != "OPTIONS" && filter.Some? && claim.Some? && filter.value.userId.Some? &&
             !findUser(filter.value.userId.value).Found?) ==> d == Reject(StatusBadRequest, "User not found")
    ensures d == Panic <==>
              httpMethod != "OPTIONS" && filter.Some? && claim.Some? && filter.value.userId.Some? &&
              findUser(filter.value.userId.value).Found? && claim.value.email.None?
    ensures d.Forward? ==> httpMethod != "OPTIONS" && Authorized(filter, claim, findUser, findSession, d.user, d.session)
    ensures forall user, session :: httpMethod != "OPTIONS" && Authorized(filter, claim, findUser, findSession, user, session) ==>
              d == Forward(user, session)
  {
    if httpMethod == "OPTIONS" then PassThrough
    else if filter.None? then Reject(StatusBadRequest, "session filter is required")
    else if claim.None? then Reject(StatusBadRequest, "jwt claim is required")
    else
      var sessionQuery := QueryOf(filter.value);
      ColumnsNameIdAndUser(filter.value);
      if "user_id" !in ColumnsOf(filter.value) then
        Reject(StatusForbidden, "Query filter does not contains required fields")
      else
        var userQueryResult := findUser(sessionQuery.userId);
        if !userQueryResult.Found? then Reject(StatusBadRequest, "User not found")
        else
          var user := userQueryResult.record;
          if claim.value.email.None? then Panic
          else if claim.value.email.value != user.email then Reject(StatusForbidden, "User Not Authorized")
          else if "id" in ColumnsOf(filter.value) then
            var sessionQueryResult := findSession(sessionQuery.id);
            if sessionQueryResult.RecordNotFound? then Reject(StatusBadRequest, "session id does not exists")
            else if sessionQueryResult.DbError? then Reject(StatusInternalServerError, "Internal Server Error")
            else if user.id != sessionQueryResult.record.userId then Reject(StatusForbidden, "User Not Authorize")
            else Forward(user, Some(sessionQueryResult.record))
          else Forward(user, None)
  }

  /** When a request may go on with `user` and `session` attached: the filter names a
      user, that user exists, the claim's email is theirs, and when the filter names a
      session, it exists, belongs to that user and is the one attached. */
  ghost predicate Authorized(filter: Option<SessionFilter>, claim: Option<Claim>,
                             findUser: nat -> Lookup<User>, findSession: nat -> Lookup<Session>,
                             user: User, session: Option<Session>)
  {
    filter.Some? && claim.Some? && filter.value.userId.Some? &&
    findUser(filter.value.userId.value) == Found(user) &&
    claim.value.email == Some(user.email) &&
    (filter.value.id.None? ==> session.None?) &&
    (filter.value.id.Some? ==>
       findSession(filter.value.id.value).Found? && session == Some(findSession(filter.value.id.value).record) &&
       session.value.userId == user.id)
  }

  /** The outcomes once the user is known and the email matches, for a filter naming a
      session: a missing session is a bad request, another lookup error an internal
      error, and someone else's session forbidden. */
  lemma SessionChecks(filter: SessionFilter, claim: Claim, findUser: nat -> Lookup<User>,
                      findSession: nat -> Lookup<Session>, httpMethod: string)
    requires httpMethod != "OPTIONS" && filter.userId.Some? && filter.id.Some?
    requires findUser(filter.userId.value).Found? && claim.email == Some(findUser(filter.userId.value).record.email)
    ensures findSession(filter.id.value).RecordNotFound? ==>
              OwnerMiddleware(httpMethod, Some(filter), Some(claim), findUser, findSession) ==
              Reject(StatusBadRequest, "session id does not exists")
    ensures findSession(filter.id.value).DbError? ==>
              OwnerMiddleware(httpMethod, Some(filter), Some(claim), findUser, findSession).status == StatusInternalServerError
    ensures findSession(filter.id.value).Found? &&
            findSession(filter.id.value).record.userId != findUser(filter.userId.value).record.id ==>
              OwnerMiddleware(httpMethod, Some(filter), Some(claim), findUser, findSession) ==
              Reject(StatusForbidden, "User Not Authorize")
  {
  }

  /** A claim whose email is not the user's is forbidden, whatever the session. */
  lemma EmailMismatchForbidden(filter: SessionFilter, claim: Claim, findUser: nat -> Lookup<User>,
                               findSession: nat -> Lookup<Session>, httpMethod: string)
    requires httpMethod != "OPTIONS" && filter.userId.Some? && findUser(filter.userId.value).Found?
    requires claim.email.Some? && claim.email.value != findUser(filter.userId.value).record.email
    ensures OwnerMiddleware(httpMethod, Some(filter), Some(claim), findUser, findSession) ==
            Reject(StatusForbidden, "User Not Authorized")
  {
  }

  // ----- POST and PUT -----

  /** The filter PUT builds from the request's: only `is_on` and `resources` carried over. */
  function UpdateFilter(filter: SessionFilter): SessionFilter
  {
    SessionFilter(None, None, filter.isOn, filter.resources)
  }

  /** GORM's `Model(&session).Select(args).Updates(&update)`: the selected columns take the
      update's values, every other column keeps its own. */
  function ApplyUpdate(session: Session, update: Session, args: seq<string>): Session
  {
    Session(if "id" in args then update.id else session.id,
            if "user_id" in args then update.userId else session.userId,
            if "is_on" in args then update.isOn else session.isOn,
            if "resources" in args then update.resources else session.resources)
  }

  /** The PUT handler's change to the session the middleware attached. */
  method PutSession(session: Session, filter: SessionFilter) returns (updated: Session, args: seq<string>)
    ensures forall c :: c in args ==> c == "is_on" || c == "resources"
    ensures updated.id == session.id && updated.userId == session.userId
    ensures updated.isOn == (if filter.isOn.Some? then filter.isOn.value else session.isOn)
    ensures updated.resources == (if filter.resources.Some? then filter.resources.value else session.resources)
  {
    var updateSession;
    updateSession, args := ExtractSessionFilter(UpdateFilter(filter));
    ColumnsListSetColumns(UpdateFilter(filter));
    updated := ApplyUpdate(session, updateSession, args);
  }

  /** The POST handler's new session: the filter's user and resources, switched off; a
      filter without either dereferences a nil pointer (`None`). */
  function NewSession(filter: SessionFilter): (s: Option<Session>)
    ensures s.Some? <==> filter.userId.Some? && filter.resources.Some?
    ensures s.Some? ==> !s.value.isOn && s.value.userId == filter.userId.value &&
                        s.value.resources == filter.resources.value
  {
    if filter.userId.None? || filter.resources.None? then None
    else Some(Session(0, filter.userId.value, false, filter.resources.value))
  }
}
