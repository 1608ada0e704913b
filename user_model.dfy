/** The User schema: required trimmed names, a lowercased email, a password
    of at least six characters and the `role` enum with its default. */
module UserModel {
  import opened Common
  import opened Text

  datatype Role = Customer | Admin

  function RoleName(r: Role): string {
    match r
    case Customer => "customer"
    case Admin => "admin"
  }

  function ParseRole(s: string): (r: Option<Role>)
    ensures r.Some? <==> s in {"customer", "admin"}
    ensures r.Some? ==> RoleName(r.value) == s
  {
    if s == "customer" then Some(Customer) else if s == "admin" then Some(Admin) else None
  }

  const DefaultRole: Role := Customer

  /** The `minlength` of `password`, in UTF-16 code units. */
  const MinPasswordLength := 6

  datatype User = User(id: Id, firstname: string, lastname: string, email: string,
                       password: string, role: Role, createdAt: Instant)

  /** The schema's constraints on a stored user. */
  predicate Valid(u: User) {
    && u.firstname != [] && Trimmed(u.firstname)
    && u.lastname != [] && Trimmed(u.lastname)
    && u.email != [] && u.email == Lower(u.email)
    && Utf16Length(u.password) >= MinPasswordLength
  }

  /** `User.create`: trims the names, lowercases the email, defaults the role,
      then checks the required fields, the email validator (`isEmail`, on the
      lowercased value), the password length and the enum. */
  function Cast(id: Id, firstname: string, lastname: string, email: string, password: string,
                role: Option<string>, now: Instant, isEmail: string -> bool): (r: Option<User>)
    ensures r.Some? <==> (Trim(firstname) != [] && Trim(lastname) != [] && email != []
                          && isEmail(Lower(email)) && Utf16Length(password) >= MinPasswordLength
                          && (role.None? || ParseRole(role.value).Some?))
    ensures r.Some? ==> Valid(r.value)
    ensures r.Some? ==> r.value.id == id && r.value.firstname == Trim(firstname)
                        && r.value.lastname == Trim(lastname) && r.value.email == Lower(email)
                        && r.value.password == password && r.value.createdAt == now
    ensures r.Some? ==> r.value.role == (if role.None? then DefaultRole else ParseRole(role.value).value)
  {
    var rl := if role.None? then Some(DefaultRole) else ParseRole(role.value);
    if Trim(firstname) != [] && Trim(lastname) != [] && email != []
       && isEmail(Lower(email)) && Utf16Length(password) >= MinPasswordLength && rl.Some?
    then
      LowerIdempotent(email);
      Some(User(id, Trim(firstname), Trim(lastname), Lower(email), password, rl.value, now))
    else None
  }

  /** A stored user passes validation again unchanged. */
  lemma CastStored(u: User, isEmail: string -> bool)
    requires Valid(u) && isEmail(u.email)
    ensures Cast(u.id, u.firstname, u.lastname, u.email, u.password, Some(RoleName(u.role)), u.createdAt, isEmail) == Some(u)
  {
    TrimTrimmed(u.firstname);
    TrimTrimmed(u.lastname);
  }
}
