/**
  `createUser`: the alias check against the `employees` collection, the identity created for
  the lower-cased e-mail, and the two profile documents written under the new identity's id.
*/
module Registration {
  import opened Wrappers
  import opened Text
  import Session

  /** The fields of the registration form that `createUser` reads. */
  datatype SignUpForm = SignUpForm(firstName: string, lastName: string, email: string, alias: string)

  /** A `users/<uid>` document. */
  datatype UserRecord = UserRecord(firstName: string, lastName: string, email: string, role: string)

  /**
    An `employees/<uid>` document. The role assignments are stored verbatim, so their shape does
    not matter here: a sequence of names stands in for them.
  */
  datatype EmployeeRecord = EmployeeRecord(alias: string, rolesValues: seq<string>)

  datatype Db = Db(users: map<Session.Uid, UserRecord>, employees: map<Session.Uid, EmployeeRecord>)

  const AliasInUse := "internalError/alias-already-in-use"
  const EmailInUseCode := "auth/email-already-in-use"
  const InvalidEmailCode := "auth/invalid-email"

  /** The alert shown when the identity provider refuses to create the identity. */
  datatype Notice = EmailTaken | EmailInvalid | OtherFailure(code: string)

  function NoticeFor(code: string): (r: Notice)
    ensures r == EmailTaken <==> code == EmailInUseCode
    ensures r == EmailInvalid <==> code == InvalidEmailCode
    ensures r.OtherFailure? ==> r.code == code && code != EmailInUseCode && code != InvalidEmailCode
  {
    if code == EmailInUseCode then EmailTaken
    else if code == InvalidEmailCode then EmailInvalid
    else OtherFailure(code)
  }

  /**
    The `forEach` over the query result: each document overwrites the flag with whether its
    alias equals `key`, so the flag ends as the verdict of the last document, or `seen` when
    there is none.
  */
  function ScanAliases(seen: bool, hits: seq<string>, key: string): (r: bool)
    ensures r == if hits == [] then seen else hits[|hits| - 1] == key
    decreases |hits|
  {
    if hits == [] then seen else ScanAliases(hits[0] == key, hits[1..], key)
  }

  /** The alias check of `createUser`: starts from false and scans the query result. */
  function AliasExists(hits: seq<string>, alias: string): (r: bool)
    ensures r <==> |hits| > 0 && hits[|hits| - 1] == Lower(alias)
  {
    ScanAliases(false, hits, Lower(alias))
  }

  /**
    The same check as the `forEach` loop of `createUser`, with the lower-casing of the requested
    alias done once before the loop instead of on every document.
  */
  method CheckAlias(hits: seq<string>, alias: string) returns (aliasExist: bool)
    ensures aliasExist <==> AliasExists(hits, alias)
  {
    var key := Lower(alias);
    aliasExist := false;
    var i := 0;
    while i < |hits|
      invariant 0 <= i <= |hits|
      invariant aliasExist <==> i > 0 && hits[i - 1] == key
    {
      aliasExist := hits[i] == key;
      i := i + 1;
    }
  }

  /** Some employee document already carries exactly this alias. */
  predicate Taken(employees: map<Session.Uid, EmployeeRecord>, key: string) {
    exists uid :: uid in employees && employees[uid].alias == key
  }

  /**
    `hits` is an answer the store may give to `where('alias', '==', key)`: the aliases of the
    matching documents in some order, none missing when there is a match.
  */
  predicate IsAnswer(employees: map<Session.Uid, EmployeeRecord>, key: string, hits: seq<string>) {
    && (forall i :: 0 <= i < |hits| ==> hits[i] == key)
    && (|hits| > 0 <==> Taken(employees, key))
  }

  /**
    Since every returned document matched the query, looking only at the last one is harmless:
    the check is true exactly when some employee already has the lower-cased alias.
  */
  lemma AliasExistsIffTaken(employees: map<Session.Uid, EmployeeRecord>, alias: string, hits: seq<string>)
    requires IsAnswer(employees, Lower(alias), hits)
    ensures AliasExists(hits, alias) <==> Taken(employees, Lower(alias))
  {
  }

  /** On any list, filtered by the query or not, only the last document decides. */
  lemma OnlyLastDecides(hits: seq<string>, last: string, alias: string)
    ensures AliasExists(hits + [last], alias) <==> last == Lower(alias)
  {
  }

  /** Two illustrations on unfiltered lists: a match followed by a non-match is no match. */
  lemma LastItemWins()
    ensures !AliasExists(["anna", "bob"], "Anna")
    ensures AliasExists(["bob", "anna"], "Anna")
  {
  }

  /** The `users` document: lower-cased names and e-mail, and always the role 'user'. */
  function NewUser(form: SignUpForm): (r: UserRecord)
    ensures IsLower(r.firstName) && IsLower(r.lastName) && IsLower(r.email)
    ensures SameIgnoringCase(r.firstName, form.firstName) && SameIgnoringCase(r.lastName, form.lastName)
    ensures SameIgnoringCase(r.email, form.email)
    ensures r.role == "user"
  {
    LowerIsLowerAndIdempotent(form.firstName);
    LowerIsLowerAndIdempotent(form.lastName);
    LowerIsLowerAndIdempotent(form.email);
    UserRecord(Lower(form.firstName), Lower(form.lastName), Lower(form.email), "user")
  }

  /** The `employees` document: the lower-cased alias and the role assignments as given. */
  function NewEmployee(alias: string, rolesValues: seq<string>): (r: EmployeeRecord)
    ensures IsLower(r.alias) && SameIgnoringCase(r.alias, alias)
    ensures r.rolesValues == rolesValues
  {
    LowerIsLowerAndIdempotent(alias);
    EmployeeRecord(Lower(alias), rolesValues)
  }

  datatype Outcome =
      // rejects with AliasInUse; nothing else happens
    | AliasConflict
      // the alias query itself failed; its error is re-thrown
    | QueryFailed(code: string)
      // an identity was created for `email` and both documents were written under `uid`
    | Created(email: string, uid: Session.Uid)
      // the provider refused `email`; the caller sees a resolved promise and an alert
    | Refused(email: string, notice: Notice)

  /** The error `createUser` rejects with, if any. */
  function Rejection(o: Outcome): (r: Option<string>)
    ensures o.AliasConflict? ==> r == Some(AliasInUse)
    ensures o.QueryFailed? ==> r == Some(o.code)
    ensures r.None? <==> o.Created? || o.Refused?
  {
    match o
    case AliasConflict => Some(AliasInUse)
    case QueryFailed(code) => Some(code)
    case _ => None
  }

  /**
    One `createUser` call. `query` is the answer to the alias query, `signUp` the provider's
    answer to creating an identity (the new id, or an error code).
  */
  function Register(db: Db, form: SignUpForm, rolesValues: seq<string>,
                    query: Result<seq<string>, string>, signUp: Result<Session.Uid, string>): (r: (Db, Outcome))
    ensures query.Failure? ==> r == (db, QueryFailed(query.error))
    ensures query.Success? && AliasExists(query.value, form.alias) ==> r == (db, AliasConflict)
    ensures r.1.Created? ==>
      && query.Success? && !AliasExists(query.value, form.alias)
      && signUp == Success(r.1.uid) && r.1.email == Lower(form.email)
      && r.0 == Db(db.users[r.1.uid := NewUser(form)], db.employees[r.1.uid := NewEmployee(form.alias, rolesValues)])
    ensures r.1.Refused? ==> r.0 == db && signUp.Failure? && r.1.notice == NoticeFor(signUp.error)
    ensures !r.1.Created? ==> r.0 == db
    ensures query.Success? && !AliasExists(query.value, form.alias) ==>
      r.1 == (if signUp.Success? then Created(Lower(form.email), signUp.value)
              else Refused(Lower(form.email), NoticeFor(signUp.error)))
  {
    match query
    case Failure(code) => (db, QueryFailed(code))
    case Success(hits) =>
      if AliasExists(hits, form.alias) then (db, AliasConflict)
      else
        var email := Lower(form.email);
        match signUp
        case Success(uid) =>
          (Db(db.users[uid := NewUser(form)], db.employees[uid := NewEmployee(form.alias, rolesValues)]), Created(email, uid))
        case Failure(code) => (db, Refused(email, NoticeFor(code)))
  }

  /**
    Once an alias is registered, any later request for the same alias in any letter case is
    refused with the alias conflict and writes nothing, whatever order the query answers in.
  */
  lemma RegisteredAliasBlocksLaterRequests(db: Db, form: SignUpForm, rolesValues: seq<string>,
                                           hits: seq<string>, uid: Session.Uid,
                                           form2: SignUpForm, rolesValues2: seq<string>,
                                           hits2: seq<string>, signUp2: Result<Session.Uid, string>)
    requires Register(db, form, rolesValues, Success(hits), Success(uid)).1.Created?
    requires SameIgnoringCase(form2.alias, form.alias)
    requires IsAnswer(Register(db, form, rolesValues, Success(hits), Success(uid)).0.employees, Lower(form2.alias), hits2)
    ensures var db1 := Register(db, form, rolesValues, Success(hits), Success(uid)).0;
      Register(db1, form2, rolesValues2, Success(hits2), signUp2) == (db1, AliasConflict)
  {
    var db1 := Register(db, form, rolesValues, Success(hits), Success(uid)).0;
    assert db1.employees[uid].alias == Lower(form2.alias);
    assert Taken(db1.employees, Lower(form2.alias));
    AliasExistsIffTaken(db1.employees, form2.alias, hits2);
  }

  /**
    Conversely, a request whose alias no stored employee carries (after lower-casing) is never
    refused for its alias.
  */
  lemma FreeAliasIsNotRefused(db: Db, form: SignUpForm, rolesValues: seq<string>,
                              hits: seq<string>, signUp: Result<Session.Uid, string>)
    requires IsAnswer(db.employees, Lower(form.alias), hits)
    requires !Taken(db.employees, Lower(form.alias))
    ensures Register(db, form, rolesValues, Success(hits), signUp).1 != AliasConflict
  {
    AliasExistsIffTaken(db.employees, form.alias, hits);
  }
}
