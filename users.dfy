/**
 * The user-admin handler: an ADMIN-only create that always inserts a STAFF
 * row with the digest of the password (the hash is a parameter) and refuses
 * a second row with the same email, and an ADMIN-only list of the STAFF
 * rows in ascending order of creation.
 */
module Users {
  import opened Wrappers
  import opened Records
  import opened Ordering

  /** The columns the create handler selects for its answer. */
  datatype CreatedUser = CreatedUser(id: int, email: string, name: string, role: Role, createdAt: int)

  /** The columns the list handler selects. */
  datatype ListedUser = ListedUser(id: int, email: string, name: string, role: Role, isActive: bool, createdAt: int)

  datatype CreateUserResponse =
    | CreateForbidden(error: string)
    | CreateBadRequest(error: string)
    | Created(user: CreatedUser)

  datatype ListUsersResponse =
    | ListForbidden(error: string)
    | Listed(users: seq<ListedUser>)

  predicate Given(o: Option<string>)
  {
    o.Some? && o.value != ""
  }

  /** The store's unique constraint on `email`. */
  predicate UniqueEmails(rows: seq<User>)
  {
    forall i, j :: 0 <= i < j < |rows| ==> rows[i].email != rows[j].email
  }

  function Listing(u: User): ListedUser
  {
    ListedUser(u.id, u.email, u.name, u.role, u.isActive, u.createdAt)
  }

  function ListedCreatedAt(u: ListedUser): int
  {
    u.createdAt
  }

  /** The listing of the STAFF rows, in table order. */
  function StaffListing(rows: seq<User>): (r: seq<ListedUser>)
    ensures forall l :: l in r <==> exists u :: u in rows && u.role == STAFF && l == Listing(u)
  {
    if rows == [] then []
    else
      assert forall u :: u in rows <==> u == rows[0] || u in rows[1..];
      (if rows[0].role == STAFF then [Listing(rows[0])] else []) + StaffListing(rows[1..])
  }

  class UserTable {
    var rows: seq<User>
    var nextId: int

    ghost predicate Valid()
      reads this
    {
      UniqueEmails(rows) && forall u :: u in rows ==> u.id < nextId
    }

    constructor (initial: seq<User>, next: int)
      requires UniqueEmails(initial) && forall u :: u in initial ==> u.id < next
      ensures Valid() && rows == initial && nextId == next
    {
      rows := initial;
      nextId := next;
    }

    /**
     * POST: non-ADMIN callers are refused before the body is read; a
     * missing email, password or name is refused; an email already in the
     * table is refused (the unique-constraint error). Otherwise one STAFF row
     * is appended that stores hash(password), and the answer omits it.
     */
    method Create(callerRole: Option<string>, email: Option<string>, password: Option<string>,
                  name: Option<string>, hash: string -> string, now: int)
      returns (r: CreateUserResponse)
      requires Valid()
      modifies this
      ensures Valid()
      ensures callerRole != Some("ADMIN") ==> r == CreateForbidden("Only admins can create users")
      ensures callerRole == Some("ADMIN") && !(Given(email) && Given(password) && Given(name)) ==>
                r == CreateBadRequest("Email, password, and name are required")
      ensures callerRole == Some("ADMIN") && Given(email) && Given(password) && Given(name)
              && (exists u :: u in old(rows) && u.email == email.value) ==>
                r == CreateBadRequest("Email already exists")
      ensures r.Created? <==>
                callerRole == Some("ADMIN") && Given(email) && Given(password) && Given(name)
                && forall u :: u in old(rows) ==> u.email != email.value
      ensures !r.Created? ==> rows == old(rows) && nextId == old(nextId)
      ensures r.Created? ==>
                var u := User(old(nextId), email.value, hash(password.value), name.value, STAFF, true, now);
                && rows == old(rows) + [u]
                && nextId == old(nextId) + 1
                && r.user == CreatedUser(u.id, u.email, u.name, STAFF, now)
    {
      if callerRole != Some("ADMIN") {
        return CreateForbidden("Only admins can create users");
      }
      if !Given(email) || !Given(password) || !Given(name) {
        return CreateBadRequest("Email, password, and name are required");
      }
      var hashed := hash(password.value);
      if FindUserByEmail(rows, email.value).Some? {
        return CreateBadRequest("Email already exists");
      }
      var u := User(nextId, email.value, hashed, name.value, STAFF, true, now);
      rows := rows + [u];
      nextId := nextId + 1;
      r := Created(CreatedUser(u.id, u.email, u.name, u.role, u.createdAt));
    }

    /**
     * GET: non-ADMIN callers are refused; otherwise the answer holds exactly
     * the STAFF rows (each as often as in the table), ordered by creation
     * time ascending.
     */
    method List(callerRole: Option<string>) returns (r: ListUsersResponse)
      ensures r.Listed? <==> callerRole == Some("ADMIN")
      ensures r.ListForbidden? ==> r.error == "Only admins can list users"
      ensures r.Listed? ==>
                && SortedBy(r.users, ListedCreatedAt)
                && multiset(r.users) == multiset(StaffListing(rows))
                && forall l :: l in r.users <==> exists u :: u in rows && u.role == STAFF && l == Listing(u)
    {
      if callerRole != Some("ADMIN") {
        return ListForbidden("Only admins can list users");
      }
      var staff := StaffListing(rows);
      var sorted := SortBy(staff, ListedCreatedAt);
      forall l
        ensures l in sorted <==> l in staff
      {
        assert l in sorted <==> l in multiset(sorted);
        assert l in staff <==> l in multiset(staff);
      }
      r := Listed(sorted);
    }
  }
}
